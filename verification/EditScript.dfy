/** Comparing two arrays: the matrix is filled, walked back into an edit script, and deletions are
    paired with additions of the same value as moves. */
module EditScript {
  import opened Wrappers
  import opened EditMatrix
  import opened Shortest

  datatype Status = Added | Deleted | Retained

  /** One entry of a script. Only `moved` changes after it is made. */
  class Entry<T> {
    const status: Status
    const value: T
    const index: Option<int>
    var moved: Option<int>

    constructor (status: Status, value: T, index: Option<int>)
      ensures this.status == status && this.value == value && this.index == index && moved == None
    {
      this.status := status;
      this.value := value;
      this.index := index;
      moved := None;
    }
  }

  // ----- What a script says -----

  /** From positions `i` of the small and `j` of the big array on, the script accounts for every entry of
      both, in order, and the index fields name the positions. */
  ghost predicate Accounts<T>(script: seq<Entry<T>>, a: seq<T>, b: seq<T>, notInSml: Status, notInBig: Status,
                              i: nat, j: nat)
    decreases |script|
  {
    if script == [] then i == |a| && j == |b|
    else
      var e, rest := script[0], script[1..];
      if e.status == notInSml then
        j < |b| && e.value == b[j] && e.index == Some(j) && Accounts(rest, a, b, notInSml, notInBig, i, j + 1)
      else if e.status == notInBig then
        i < |a| && e.value == a[i] && e.index == Some(i) && Accounts(rest, a, b, notInSml, notInBig, i + 1, j)
      else
        && i < |a| && j < |b| && e.status == Retained && e.value == a[i] == b[j] && e.index == None
        && Accounts(rest, a, b, notInSml, notInBig, i + 1, j + 1)
  }

  /** The script turns `old` into `new`, seen from positions `i` and `j` on. */
  ghost predicate Turns<T>(script: seq<Entry<T>>, past: seq<T>, target: seq<T>, i: nat, j: nat) {
    Accounts(script, past, target, Added, Deleted, i, j)
  }

  function Selected<T>(script: seq<Entry<T>>, but: Status): seq<T>
  {
    if script == [] then []
    else (if script[0].status == but then [] else [script[0].value]) + Selected(script[1..], but)
  }

  function EditCount<T>(script: seq<Entry<T>>): nat {
    if script == [] then 0 else (if script[0].status == Retained then 0 else 1) + EditCount(script[1..])
  }

  lemma {:induction false} AccountsSwapped<T>(script: seq<Entry<T>>, a: seq<T>, b: seq<T>, i: nat, j: nat)
    requires Accounts(script, a, b, Deleted, Added, i, j)
    ensures Turns(script, b, a, j, i)
    decreases |script|
  {
    if script != [] {
      if script[0].status == Deleted {
        AccountsSwapped(script[1..], a, b, i, j + 1);
      } else if script[0].status == Added {
        AccountsSwapped(script[1..], a, b, i + 1, j);
      } else {
        AccountsSwapped(script[1..], a, b, i + 1, j + 1);
      }
    }
  }

  /** Script fidelity: what is not added spells the old array, what is not deleted spells the new one. */
  lemma {:induction false} ScriptSpells<T>(script: seq<Entry<T>>, past: seq<T>, target: seq<T>, i: nat, j: nat)
    requires Turns(script, past, target, i, j)
    ensures i <= |past| && j <= |target|
    ensures Selected(script, Added) == past[i..] && Selected(script, Deleted) == target[j..]
    decreases |script|
  {
    if script != [] {
      if script[0].status == Added {
        ScriptSpells(script[1..], past, target, i, j + 1);
      } else if script[0].status == Deleted {
        ScriptSpells(script[1..], past, target, i + 1, j);
      } else {
        ScriptSpells(script[1..], past, target, i + 1, j + 1);
      }
    }
  }

  // ----- Filling the matrix -----

  ghost predicate Filled<T>(a: seq<T>, b: seq<T>, matrix: seq<Row>, rows: nat)
    requires |a| <= |b|
  {
    |matrix| == rows <= |a| + 1 && forall i :: 0 <= i < rows ==> FilledRow(a, b, matrix[i], i, |b| + 1)
  }

  /** Columns below `width` that lie in the band hold their cells; no other column is defined. */
  ghost predicate FilledRow<T>(a: seq<T>, b: seq<T>, row: Row, i: int, width: int)
    requires |a| <= |b|
  {
    && (forall j :: j in row ==> j < width && InBand(|a|, |b|, i, j) && row[j] == Cell(a, b, i, j))
    && (forall j :: j < width && InBand(|a|, |b|, i, j) ==> j in row)
  }

  /** A value that is not undefined (or zero, which no cell is). */
  function Defined(row: Row, j: int, otherwise: int): int {
    if j in row && row[j] != 0 then row[j] else otherwise
  }

  method FillMatrix<T(==)>(a: seq<T>, b: seq<T>) returns (matrix: seq<Row>)
    requires |a| <= |b|
    ensures Filled(a, b, matrix, |a| + 1)
  {
    hide FilledRow, Cell;
    matrix := [];
    var thisRow: Row := map[];
    var i := 0;
    while i <= |a|
      invariant 0 <= i <= |a| + 1 && Filled(a, b, matrix, i)
      invariant i > 0 ==> FilledRow(a, b, thisRow, i - 1, |b| + 1)
    {
      thisRow := FillRow(a, b, thisRow, i);
      matrix := matrix + [thisRow];
      i := i + 1;
    }
  }

  method FillRow<T(==)>(a: seq<T>, b: seq<T>, lastRow: Row, i: nat) returns (thisRow: Row)
    requires |a| <= |b| && i <= |a|
    requires i > 0 ==> FilledRow(a, b, lastRow, i - 1, |b| + 1)
    ensures FilledRow(a, b, thisRow, i, |b| + 1)
  {
    var compareRange := if |b| - |a| == 0 then 1 else |b| - |a|;
    thisRow := map[];
    var maxForRow := if |b| <= i + compareRange then |b| else i + compareRange;
    var minForRow := if i == 0 then 0 else i - 1;
    var j := minForRow;
    while j <= maxForRow
      invariant minForRow <= j <= maxForRow + 1
      invariant FilledRow(a, b, thisRow, i, j)
    {
      var value := FillCell(a, b, lastRow, thisRow, i, j);
      Extended(a, b, thisRow, i, j, value);
      thisRow := thisRow[j := value];
      j := j + 1;
    }
  }

  method FillCell<T(==)>(a: seq<T>, b: seq<T>, lastRow: Row, thisRow: Row, i: nat, j: nat) returns (value: int)
    requires |a| <= |b| && InBand(|a|, |b|, i, j)
    requires i > 0 ==> FilledRow(a, b, lastRow, i - 1, |b| + 1)
    requires FilledRow(a, b, thisRow, i, j)
    ensures value == Cell(a, b, i, j)
  {
    var maxDistance := |a| + |b| + 1;
    if j == 0 {
      value := i + 1;
    } else if i == 0 {
      value := j + 1;
    } else if a[i - 1] == b[j - 1] {
      value := lastRow[j - 1];
    } else {
      var northDistance := Defined(lastRow, j, maxDistance);
      var westDistance := Defined(thisRow, j - 1, maxDistance);
      ReadsCell(a, b, lastRow, i - 1, j, |b| + 1, maxDistance);
      ReadsCell(a, b, thisRow, i, j - 1, j, maxDistance);
      value := (if northDistance <= westDistance then northDistance else westDistance) + 1;
    }
  }

  lemma Extended<T>(a: seq<T>, b: seq<T>, row: Row, i: int, j: int, value: int)
    requires |a| <= |b| && FilledRow(a, b, row, i, j) && InBand(|a|, |b|, i, j) && value == Cell(a, b, i, j)
    ensures FilledRow(a, b, row[j := value], i, j + 1)
  {
    var wider := row[j := value];
    forall k | k in wider
      ensures k < j + 1 && InBand(|a|, |b|, i, k) && wider[k] == Cell(a, b, i, k)
    {
      if k != j {
        assert k in row;
      }
    }
    forall k | k < j + 1 && InBand(|a|, |b|, i, k)
      ensures k in wider
    {
      if k != j {
        assert k in row;
      }
    }
  }

  /** Reading a filled column gives its cell; reading a hole gives the default. */
  lemma ReadsCell<T>(a: seq<T>, b: seq<T>, row: Row, i: int, j: int, width: int, otherwise: int)
    requires |a| <= |b| && j < width && FilledRow(a, b, row, i, width)
    ensures Defined(row, j, otherwise) == if InBand(|a|, |b|, i, j) then Cell(a, b, i, j) else otherwise
  {
    if j in row {
      CellBounds(a, b, i, j);
    }
  }

  // ----- Walking back -----

  function Reversed<E>(s: seq<E>): (r: seq<E>)
    ensures |r| == |s| && forall k :: 0 <= k < |s| ==> r[k] == s[|s| - 1 - k]
  {
    if s == [] then [] else Reversed(s[1..]) + [s[0]]
  }

  lemma ReversedPush<E>(s: seq<E>, e: E)
    ensures Reversed(s + [e]) == [e] + Reversed(s)
  {
  }

  /** The entries of one status, each listed once. */
  ghost predicate ListsStatus<T>(list: seq<Entry<T>>, script: seq<Entry<T>>, status: Status) {
    && AllDistinct(list)
    && (forall e :: e in list ==> e in script && e.status == status)
    && (forall e :: e in script && e.status == status ==> e in list)
  }

  ghost predicate NoneMoved<T>(script: seq<Entry<T>>)
    reads script
  {
    forall e :: e in script ==> e.moved == None
  }

  /** What the walk back has pushed when it stands at (i, j). */
  ghost predicate Walked<T>(a: seq<T>, b: seq<T>, sml: Status, big: Status, i: nat, j: nat,
                            pushed: seq<Entry<T>>, notInSml: seq<Entry<T>>, notInBig: seq<Entry<T>>)
    requires |a| <= |b|
  {
    && InBand(|a|, |b|, i, j)
    && Accounts(Reversed(pushed), a, b, sml, big, i, j)
    && EditCount(Reversed(pushed)) + Cell(a, b, i, j) == Cell(a, b, |a|, |b|)
    && Collected(pushed, sml, notInSml, big, notInBig)
  }

  /** The pushed entries are distinct, and those with either edit status are listed apart. */
  ghost predicate Collected<T>(pushed: seq<Entry<T>>, sml: Status, notInSml: seq<Entry<T>>, big: Status,
                               notInBig: seq<Entry<T>>) {
    ListsStatus(notInSml, pushed, sml) && ListsStatus(notInBig, pushed, big) && AllDistinct(pushed)
  }

  lemma CollectedPush<T>(pushed: seq<Entry<T>>, sml: Status, notInSml: seq<Entry<T>>, big: Status,
                         notInBig: seq<Entry<T>>, e: Entry<T>)
    requires Collected(pushed, sml, notInSml, big, notInBig) && e !in pushed
    ensures Collected(pushed + [e], sml, if e.status == sml then notInSml + [e] else notInSml,
                                    big, if e.status == big then notInBig + [e] else notInBig)
  {
  }

  predicate Kinds(sml: Status, big: Status) {
    sml != big && sml != Retained && big != Retained
  }

  /** The entry to push for the step back from (i, j). */
  ghost predicate Records<T>(a: seq<T>, b: seq<T>, sml: Status, big: Status, i: nat, j: nat, e: Entry<T>)
    requires |a| <= |b| && InBand(|a|, |b|, i, j) && (i > 0 || j > 0)
  {
    match StepBack(a, b, i, j)
    case AddOne => j > 0 && e.status == sml && e.value == b[j - 1] && e.index == Some(j - 1)
    case DropOne => i > 0 && e.status == big && e.value == a[i - 1] && e.index == Some(i - 1)
    case Keep => j > 0 && e.status == Retained && e.value == b[j - 1] && e.index == None
  }

  lemma WalkedAdd<T>(a: seq<T>, b: seq<T>, sml: Status, big: Status, i: nat, j: nat,
                     pushed: seq<Entry<T>>, notInSml: seq<Entry<T>>, notInBig: seq<Entry<T>>, e: Entry<T>)
    requires |a| <= |b| && Kinds(sml, big) && Walked(a, b, sml, big, i, j, pushed, notInSml, notInBig)
    requires (i > 0 || j > 0) && StepBack(a, b, i, j) == AddOne && Records(a, b, sml, big, i, j, e) && e !in pushed
    ensures j > 0 && Walked(a, b, sml, big, i, j - 1, pushed + [e], notInSml + [e], notInBig)
  {
    hide Cell, Accounts, EditCount, Collected, Reversed, StepBack;
    StepCosts(a, b, i, j);
    StepBackKeeps(a, b, i, j);
    ReversedPush(pushed, e);
    CollectedPush(pushed, sml, notInSml, big, notInBig, e);
    PrependEntry(e, Reversed(pushed), a, b, sml, big, i, j - 1);
  }

  lemma WalkedDrop<T>(a: seq<T>, b: seq<T>, sml: Status, big: Status, i: nat, j: nat,
                     pushed: seq<Entry<T>>, notInSml: seq<Entry<T>>, notInBig: seq<Entry<T>>, e: Entry<T>)
    requires |a| <= |b| && Kinds(sml, big) && Walked(a, b, sml, big, i, j, pushed, notInSml, notInBig)
    requires (i > 0 || j > 0) && StepBack(a, b, i, j) == DropOne && Records(a, b, sml, big, i, j, e) && e !in pushed
    ensures i > 0 && Walked(a, b, sml, big, i - 1, j, pushed + [e], notInSml, notInBig + [e])
  {
    hide Cell, Accounts, EditCount, Collected, Reversed, StepBack;
    StepCosts(a, b, i, j);
    StepBackKeeps(a, b, i, j);
    ReversedPush(pushed, e);
    CollectedPush(pushed, sml, notInSml, big, notInBig, e);
    PrependEntry(e, Reversed(pushed), a, b, sml, big, i - 1, j);
  }

  lemma WalkedKeep<T>(a: seq<T>, b: seq<T>, sml: Status, big: Status, i: nat, j: nat,
                     pushed: seq<Entry<T>>, notInSml: seq<Entry<T>>, notInBig: seq<Entry<T>>, e: Entry<T>)
    requires |a| <= |b| && Kinds(sml, big) && Walked(a, b, sml, big, i, j, pushed, notInSml, notInBig)
    requires (i > 0 || j > 0) && StepBack(a, b, i, j) == Keep && Records(a, b, sml, big, i, j, e) && e !in pushed
    ensures i > 0 && j > 0 && Walked(a, b, sml, big, i - 1, j - 1, pushed + [e], notInSml, notInBig)
  {
    hide Cell, Accounts, EditCount, Collected, Reversed, StepBack;
    StepCosts(a, b, i, j);
    StepBackKeeps(a, b, i, j);
    ReversedPush(pushed, e);
    CollectedPush(pushed, sml, notInSml, big, notInBig, e);
    PrependEntry(e, Reversed(pushed), a, b, sml, big, i - 1, j - 1);
  }

  lemma WalkedStart<T>(a: seq<T>, b: seq<T>, sml: Status, big: Status)
    requires |a| <= |b|
    ensures Walked(a, b, sml, big, |a|, |b|, [], [], [])
  {
  }

  /** The move of an entry, from its status. */
  function MoveOf(status: Status, sml: Status, big: Status): Move {
    if status == sml then AddOne else if status == big then DropOne else Keep
  }

  function MovesOf<T>(script: seq<Entry<T>>, sml: Status, big: Status): (moves: seq<Move>)
    ensures |moves| == |script|
    ensures forall k :: 0 <= k < |script| ==> moves[k] == MoveOf(script[k].status, sml, big)
  {
    if script == [] then [] else [MoveOf(script[0].status, sml, big)] + MovesOf(script[1..], sml, big)
  }

  /** The entries pushed are the end of the walk back; what is left of it leads to (i, j). */
  ghost predicate Follows<T>(a: seq<T>, b: seq<T>, sml: Status, big: Status, i: nat, j: nat, pushed: seq<Entry<T>>)
    requires |a| <= |b| && InBand(|a|, |b|, i, j)
  {
    WalkBack(a, b, |a|, |b|) == WalkBack(a, b, i, j) + MovesOf(Reversed(pushed), sml, big)
  }

  lemma FollowsOn<T>(a: seq<T>, b: seq<T>, sml: Status, big: Status, i: nat, j: nat, pushed: seq<Entry<T>>, e: Entry<T>,
                     i': nat, j': nat)
    requires |a| <= |b| && InBand(|a|, |b|, i, j) && (i > 0 || j > 0) && Follows(a, b, sml, big, i, j, pushed)
    requires MoveOf(e.status, sml, big) == StepBack(a, b, i, j)
    requires match StepBack(a, b, i, j)
             case AddOne => i' == i && j' == j - 1
             case DropOne => i' == i - 1 && j' == j
             case Keep => i' == i - 1 && j' == j - 1
    requires InBand(|a|, |b|, i', j')
    ensures Follows(a, b, sml, big, i', j', pushed + [e])
  {
    hide Cell, StepBack, Reversed, WalkBack, MovesOf;
    var step := StepBack(a, b, i, j);
    var moves := MovesOf(Reversed(pushed), sml, big);
    MovesPush(pushed, e, sml, big);
    WalkBackEnds(a, b, i, j);
    assert WalkBack(a, b, i', j') + [step] + moves == WalkBack(a, b, i', j') + ([step] + moves);
  }

  lemma MovesPush<T>(pushed: seq<Entry<T>>, e: Entry<T>, sml: Status, big: Status)
    ensures MovesOf(Reversed(pushed + [e]), sml, big) ==
            [MoveOf(e.status, sml, big)] + MovesOf(Reversed(pushed), sml, big)
  {
    hide Reversed;
    ReversedPush(pushed, e);
    assert ([e] + Reversed(pushed))[1..] == Reversed(pushed);
  }

  function CountOf<T>(script: seq<Entry<T>>, status: Status): nat {
    if script == [] then 0 else (if script[0].status == status then 1 else 0) + CountOf(script[1..], status)
  }

  /** The entries' positions fall, and none lies below `least`. */
  ghost predicate Descends<T>(list: seq<Entry<T>>, least: int) {
    && (forall k :: 0 <= k < |list| ==> list[k].index.Some? && list[k].index.value >= least)
    && (forall k, m :: 0 <= k < m < |list| ==> Position(list[k]) > Position(list[m]))
  }

  function Position<T>(e: Entry<T>): int {
    e.index.GetOr(-1)
  }

  lemma DescendsOn<T>(list: seq<Entry<T>>, e: Entry<T>, least: int)
    requires Descends(list, least + 1) && e.index == Some(least)
    ensures Descends(list + [e], least)
  {
  }

  /** What the walk has pushed, in order: each list falls from the end of its array, and together with the
      retained entries they follow the walk back. */
  ghost predicate Ordered<T>(a: seq<T>, b: seq<T>, sml: Status, big: Status, i: nat, j: nat,
                             pushed: seq<Entry<T>>, notInSml: seq<Entry<T>>, notInBig: seq<Entry<T>>)
    requires |a| <= |b| && InBand(|a|, |b|, i, j)
  {
    && Follows(a, b, sml, big, i, j, pushed) && Descends(notInSml, j) && Descends(notInBig, i)
    && |notInSml| == CountOf(Reversed(pushed), sml) && |notInBig| == CountOf(Reversed(pushed), big)
  }

  lemma OrderedStart<T>(a: seq<T>, b: seq<T>, sml: Status, big: Status)
    requires |a| <= |b|
    ensures Ordered(a, b, sml, big, |a|, |b|, [], [], [])
  {
    hide Cell, StepBack, WalkBack;
  }

  lemma DescendsLess<T>(list: seq<Entry<T>>, least: int)
    requires Descends(list, least + 1)
    ensures Descends(list, least)
  {
  }

  lemma CountPush<T>(pushed: seq<Entry<T>>, e: Entry<T>, status: Status)
    ensures CountOf(Reversed(pushed + [e]), status) ==
            CountOf(Reversed(pushed), status) + (if e.status == status then 1 else 0)
  {
    ReversedPush(pushed, e);
    assert ([e] + Reversed(pushed))[1..] == Reversed(pushed);
  }

  lemma OrderedOn<T>(a: seq<T>, b: seq<T>, sml: Status, big: Status, i: nat, j: nat, pushed: seq<Entry<T>>,
                     notInSml: seq<Entry<T>>, notInBig: seq<Entry<T>>, e: Entry<T>, i': nat, j': nat)
    requires |a| <= |b| && Kinds(sml, big) && InBand(|a|, |b|, i, j) && (i > 0 || j > 0)
    requires Ordered(a, b, sml, big, i, j, pushed, notInSml, notInBig) && InBand(|a|, |b|, i', j')
    requires match StepBack(a, b, i, j)
             case AddOne => i' == i && j' == j - 1 && e.status == sml && e.index == Some(j')
             case DropOne => i' == i - 1 && j' == j && e.status == big && e.index == Some(i')
             case Keep => i' == i - 1 && j' == j - 1 && e.status == Retained
    ensures Ordered(a, b, sml, big, i', j', pushed + [e], if e.status == sml then notInSml + [e] else notInSml,
                    if e.status == big then notInBig + [e] else notInBig)
  {
    hide Cell, StepBack, Reversed, CountOf, Descends, Follows;
    FollowsOn(a, b, sml, big, i, j, pushed, e, i', j');
    CountPush(pushed, e, sml);
    CountPush(pushed, e, big);
    if e.status == sml {
      DescendsOn(notInSml, e, j');
    } else if e.status == big {
      DescendsOn(notInBig, e, i');
    } else {
      DescendsLess(notInSml, j');
      DescendsLess(notInBig, i');
    }
  }

  /** The script as pushed, last entry first; the walk starts in the far corner. */
  method WalkMatrix<T(==)>(a: seq<T>, b: seq<T>, matrix: seq<Row>, notInSmlStatus: Status, notInBigStatus: Status)
    returns (editScript: seq<Entry<T>>, notInSml: seq<Entry<T>>, notInBig: seq<Entry<T>>)
    requires |a| <= |b| && Filled(a, b, matrix, |a| + 1) && Kinds(notInSmlStatus, notInBigStatus)
    ensures Walked(a, b, notInSmlStatus, notInBigStatus, 0, 0, editScript, notInSml, notInBig)
    ensures NoneMoved(editScript) && forall e :: e in editScript ==> fresh(e)
    ensures |notInSml| <= |b| && |notInBig| <= |a|
    ensures Ordered(a, b, notInSmlStatus, notInBigStatus, 0, 0, editScript, notInSml, notInBig)
  {
    hide Walked, Filled, Cell, WalkBack, Ordered;
    OrderedStart(a, b, notInSmlStatus, notInBigStatus);
    editScript, notInSml, notInBig := [], [], [];
    var i, j := |a|, |b|;
    WalkedStart(a, b, notInSmlStatus, notInBigStatus);
    while i != 0 || j != 0
      invariant 0 <= i <= |a| && 0 <= j <= |b| && InBand(|a|, |b|, i, j)
      invariant Walked(a, b, notInSmlStatus, notInBigStatus, i, j, editScript, notInSml, notInBig)
      invariant NoneMoved(editScript) && forall e :: e in editScript ==> fresh(e)
      invariant |notInSml| <= |b| - j && |notInBig| <= |a| - i
      invariant Ordered(a, b, notInSmlStatus, notInBigStatus, i, j, editScript, notInSml, notInBig)
      decreases i + j
    {
      var step := ChooseStep(a, b, matrix, i, j);
      StepBackKeeps(a, b, i, j);
      match step {
        case AddOne =>
          var entry := new Entry(notInSmlStatus, b[j - 1], Some(j - 1));
          WalkedAdd(a, b, notInSmlStatus, notInBigStatus, i, j, editScript, notInSml, notInBig, entry);
          OrderedOn(a, b, notInSmlStatus, notInBigStatus, i, j, editScript, notInSml, notInBig, entry, i, j - 1);
          j := j - 1;
          notInSml := notInSml + [entry];
          editScript := editScript + [entry];
        case DropOne =>
          var entry := new Entry(notInBigStatus, a[i - 1], Some(i - 1));
          WalkedDrop(a, b, notInSmlStatus, notInBigStatus, i, j, editScript, notInSml, notInBig, entry);
          OrderedOn(a, b, notInSmlStatus, notInBigStatus, i, j, editScript, notInSml, notInBig, entry, i - 1, j);
          i := i - 1;
          notInBig := notInBig + [entry];
          editScript := editScript + [entry];
        case Keep =>
          var entry := new Entry(Retained, b[j - 1], None);
          WalkedKeep(a, b, notInSmlStatus, notInBigStatus, i, j, editScript, notInSml, notInBig, entry);
          OrderedOn(a, b, notInSmlStatus, notInBigStatus, i, j, editScript, notInSml, notInBig, entry, i - 1, j - 1);
          j := j - 1;
          editScript := editScript + [entry];
          i := i - 1;
      }
    }
  }

  lemma PrependEntry<T>(e: Entry<T>, rest: seq<Entry<T>>, a: seq<T>, b: seq<T>, sml: Status, big: Status, i: nat,
                        j: nat)
    requires sml != big && sml != Retained && big != Retained
    requires
      || (e.status == sml && j < |b| && e.value == b[j] && e.index == Some(j)
          && Accounts(rest, a, b, sml, big, i, j + 1))
      || (e.status == big && i < |a| && e.value == a[i] && e.index == Some(i)
          && Accounts(rest, a, b, sml, big, i + 1, j))
      || (e.status == Retained && i < |a| && j < |b| && e.value == a[i] == b[j] && e.index == None
          && Accounts(rest, a, b, sml, big, i + 1, j + 1))
    ensures Accounts([e] + rest, a, b, sml, big, i, j)
    ensures EditCount([e] + rest) == EditCount(rest) + (if e.status == Retained then 0 else 1)
  {
  }

  method ChooseStep<T(==)>(a: seq<T>, b: seq<T>, matrix: seq<Row>, i: nat, j: nat) returns (step: Move)
    requires |a| <= |b| && Filled(a, b, matrix, |a| + 1) && InBand(|a|, |b|, i, j) && (i > 0 || j > 0)
    ensures step == StepBack(a, b, i, j)
  {
    assert FilledRow(a, b, matrix[i], i, |b| + 1);
    var meMinusOne := matrix[i][j] - 1;
    if j != 0 && j - 1 in matrix[i] && meMinusOne == matrix[i][j - 1] {
      step := AddOne;
    } else {
      assert i > 0 ==> FilledRow(a, b, matrix[i - 1], i - 1, |b| + 1);
      if i != 0 && j in matrix[i - 1] && meMinusOne == matrix[i - 1][j] {
        step := DropOne;
      } else {
        step := Keep;
      }
    }
  }

  // ----- Pairing deletions with additions -----

  /** Each names the other's position, and they hold the same value. */
  ghost predicate Partners<T>(x: Entry<T>, y: Entry<T>)
    reads x, y
  {
    && x.index.Some? && y.index.Some? && x.status != y.status && x.value == y.value
    && x.moved == y.index && y.moved == x.index
  }

  /** `mate` matches moved entries of the script one to one, and no other entry is moved. */
  ghost predicate Paired<T>(script: seq<Entry<T>>, mate: map<Entry<T>, Entry<T>>)
    reads script
  {
    && (forall x :: x in mate ==> x in script && mate[x] in script && mate[x] in mate)
    && (forall x :: x in mate ==> mate[mate[x]] == x && Partners(x, mate[x]))
    && (forall x :: x in script ==> (x in mate <==> x.moved.Some?))
  }

  /** Exactly the entries with an edit status carry an index. */
  ghost predicate Indexed<T>(script: seq<Entry<T>>) {
    forall e :: e in script ==> (e.status != Retained <==> e.index.Some?)
  }

  /** `left` lists the unmoved entries of the script with this status. */
  ghost predicate Unmoved<T>(left: seq<Entry<T>>, script: seq<Entry<T>>, status: Status)
    reads script
  {
    && AllDistinct(left)
    && (forall e :: e in left ==> e in script && e.status == status && e.moved == None)
    && (forall e :: e in script && e.status == status && e.moved == None ==> e in left)
  }

  /** No unmoved pair of the two kinds shares a value. */
  ghost predicate Exhausted<T>(script: seq<Entry<T>>, sml: Status, big: Status)
    reads script
  {
    forall x, y ::
      x in script && y in script && x.status == sml && y.status == big && x.moved == None && y.moved == None ==>
      x.value != y.value
  }

  /** The position of the first entry of that value, or the length. */
  method FindValue<T(==)>(list: seq<Entry<T>>, value: T) returns (d: nat)
    ensures d <= |list| && (d < |list| ==> list[d].value == value)
    ensures forall k :: 0 <= k < d ==> list[k].value != value
  {
    d := 0;
    while d < |list| && list[d].value != value
      invariant d <= |list| && forall k :: 0 <= k < d ==> list[k].value != value
    {
      d := d + 1;
    }
  }

  method MarkMoved<T>(x: Entry<T>, y: Entry<T>, ghost script: seq<Entry<T>>, ghost mate: map<Entry<T>, Entry<T>>)
    requires x in script && y in script && x.moved == None && y.moved == None && Paired(script, mate)
    requires x.status != y.status && x.value == y.value && x.index.Some? && y.index.Some?
    modifies x`moved, y`moved
    ensures Paired(script, mate[x := y][y := x]) && x.moved.Some? && y.moved.Some?
  {
    x.moved := y.index;
    y.moved := x.index;
    ghost var both := mate[x := y][y := x];
    forall z | z in both
      ensures z in script && both[z] in script && both[z] in both && both[both[z]] == z && Partners(z, both[z])
    {
      if z != x && z != y {
        assert old(Partners(z, mate[z]));
        assert mate[z] != x && mate[z] != y;
      }
    }
  }

  function Without<E>(s: seq<E>, d: nat): seq<E>
    requires d < |s|
  {
    s[..d] + s[d + 1..]
  }

  lemma WithoutKeeps<E>(s: seq<E>, d: nat)
    requires d < |s| && AllDistinct(s)
    ensures AllDistinct(Without(s, d)) && forall e :: e in Without(s, d) <==> e in s && e != s[d]
  {
  }

  /** How many comparisons the search can make at most. */
  predicate WithinLimit(additions: nat, deletions: nat, smlLength: nat) {
    additions * deletions <= smlLength * 10
  }

  lemma LimitNotReached(tried: nat, additions: nat, deletions: nat, failures: int, smlLength: nat)
    requires WithinLimit(additions, deletions, smlLength) && tried < additions && deletions > 0
    requires failures <= tried * deletions
    ensures failures < smlLength * 10
  {
  }

  lemma EitherWayWithin(additions: nat, deletions: nat, smlLength: nat)
    ensures WithinLimit(additions, deletions, smlLength) <==> WithinLimit(deletions, additions, smlLength)
  {
  }

  lemma ShortArraysWithin(additions: nat, deletions: nat, smlLength: nat)
    requires additions <= 10 && deletions <= smlLength
    ensures WithinLimit(additions, deletions, smlLength)
  {
  }

  // ----- What the search does -----

  /** A finished search: the entries tried in turn, those they were compared with, and which were matched; the
      limit may have ended it before the last. */
  datatype Search<T> = Search(tried: seq<Entry<T>>, listed: seq<Entry<T>>, found: seq<bool>)

  function Matches(found: seq<bool>): nat {
    if found == [] then 0 else Matches(found[..|found| - 1]) + (if found[|found| - 1] then 1 else 0)
  }

  /** The comparisons that failed since the last match, after these positions, with `listed` entries to compare
      with at first: each unmatched position fails against all that were left. */
  function Failures(found: seq<bool>, listed: int): int {
    if found == [] || found[|found| - 1] then 0
    else var front := found[..|found| - 1]; Failures(front, listed) + (listed - Matches(front))
  }

  lemma MatchesOn(found: seq<bool>, hit: bool, listed: int)
    ensures Matches(found + [hit]) == Matches(found) + (if hit then 1 else 0)
    ensures Failures(found + [hit], listed) == if hit then 0 else Failures(found, listed) + (listed - Matches(found))
  {
    assert (found + [hit])[..|found|] == found;
  }

  lemma {:induction false} FailuresBounded(found: seq<bool>, listed: nat)
    requires Matches(found) <= listed
    ensures 0 <= Failures(found, listed) <= |found| * listed
    decreases |found|
  {
    if found != [] {
      var front := found[..|found| - 1];
      FailuresBounded(front, listed);
      assert |found| * listed == |front| * listed + listed;
    }
  }

  /** The failures were below the limit before each of these positions. */
  ghost predicate NeverAt(found: seq<bool>, listed: int, limit: int) {
    forall k :: 0 <= k < |found| ==> Failures(found[..k], listed) < limit
  }

  lemma NeverAtOn(found: seq<bool>, hit: bool, listed: int, limit: int)
    requires NeverAt(found, listed, limit) && Failures(found, listed) < limit
    ensures NeverAt(found + [hit], listed, limit)
  {
    hide Failures;
    assert (found + [hit])[..|found|] == found;
    forall k | 0 <= k <= |found|
      ensures Failures((found + [hit])[..k], listed) < limit
    {
      assert (found + [hit])[..k] == found[..k];
    }
  }

  /** The limit on consecutive failures was not reached before any position tried, and if entries were left
      untried it was reached then. */
  ghost predicate StopsAtLimit(found: seq<bool>, tried: nat, listed: nat, smlLength: nat, dontLimitMoves: bool) {
    && |found| <= tried && Matches(found) <= listed
    && (dontLimitMoves || NeverAt(found, listed, smlLength * 10))
    && (|found| < tried ==> !dontLimitMoves && Failures(found, listed) >= smlLength * 10)
  }

  /** Which positions were matched shows in the entries. */
  ghost predicate Recorded<T>(tried: seq<Entry<T>>, found: seq<bool>)
    reads tried
  {
    && |found| <= |tried|
    && (forall k :: 0 <= k < |found| ==> (found[k] <==> tried[k].moved.Some?))
    && (forall k :: |found| <= k < |tried| ==> tried[k].moved == None)
  }

  /** Positions tried without a match share no value with what is left. */
  ghost predicate NoneLeft<T>(tried: seq<Entry<T>>, found: seq<bool>, left: seq<Entry<T>>) {
    |found| <= |tried| &&
    forall k, y :: 0 <= k < |found| && !found[k] && y in left ==> y.value != tried[k].value
  }

  ghost predicate Alike<T>(x: Entry<T>, y: Entry<T>) {
    x.status == y.status && x.value == y.value
  }

  /** Of entries with the same value, those nearest the end are matched, and matched in turn. */
  ghost predicate FromTheEnd<T>(script: seq<Entry<T>>, mate: map<Entry<T>, Entry<T>>) {
    && (forall x, y :: x in mate && y in script && y !in mate && Alike(x, y) ==> Position(y) < Position(x))
    && (forall x, y :: x in mate && y in mate && Alike(x, y) && Position(x) < Position(y) ==>
          Position(mate[x]) < Position(mate[y]))
  }

  /** Matched entries belong together two by two. */
  ghost predicate TwoByTwo<T>(mate: map<Entry<T>, Entry<T>>) {
    forall x :: x in mate ==>
      && mate[x] in mate && mate[mate[x]] == x && mate[x].value == x.value && x.status != mate[x].status
      && x.status != Retained && mate[x].status != Retained
  }

  /** An unmatched entry of its kind and value lies nearer the beginning. */
  ghost predicate Nearest<T>(script: seq<Entry<T>>, mate: map<Entry<T>, Entry<T>>, x: Entry<T>) {
    forall y :: y in script && y !in mate && y != x && Alike(x, y) ==> Position(y) < Position(x)
  }

  /** One more pair, of the unmatched entries of this value nearest the end. */
  lemma FromTheEndOn<T>(script: seq<Entry<T>>, mate: map<Entry<T>, Entry<T>>, item: Entry<T>, other: Entry<T>)
    requires FromTheEnd(script, mate) && TwoByTwo(mate) && item !in mate && other !in mate
    requires item in script && other in script && item.value == other.value && item.status != other.status
    requires item.status != Retained && other.status != Retained
    requires Nearest(script, mate, item) && Nearest(script, mate, other)
    ensures FromTheEnd(script, mate[item := other][other := item])
  {
    var both := mate[item := other][other := item];
    forall x, y | x in both && y in both && Alike(x, y) && Position(x) < Position(y)
      ensures Position(both[x]) < Position(both[y])
    {
      TurnKept(script, mate, item, other, x, y);
    }
    assert forall x, y :: x in both && y in script && y !in both && Alike(x, y) ==> Position(y) < Position(x);
  }

  lemma TurnKept<T>(script: seq<Entry<T>>, mate: map<Entry<T>, Entry<T>>, item: Entry<T>, other: Entry<T>,
                    x: Entry<T>, y: Entry<T>)
    requires FromTheEnd(script, mate) && TwoByTwo(mate) && item !in mate && other !in mate
    requires item in script && other in script && item.value == other.value && item.status != other.status
    requires item.status != Retained && other.status != Retained
    requires var both := mate[item := other][other := item]; x in both && y in both
    requires Alike(x, y) && Position(x) < Position(y)
    ensures var both := mate[item := other][other := item]; Position(both[x]) < Position(both[y])
  {
    assert x in mate && y !in mate ==> Position(y) < Position(x);
    if x !in mate && y in mate {
      var partner := if x == item then other else item;
      assert Alike(mate[y], partner);
    }
  }

  /** The search: `left` still lists the unmoved entries of the other status, and positions below |found| are done. */
  ghost predicate Searched<T>(tried: seq<Entry<T>>, left: seq<Entry<T>>, found: seq<bool>,
                              mate: map<Entry<T>, Entry<T>>, script: seq<Entry<T>>, bigStatus: Status)
    reads script, tried
  {
    && Paired(script, mate) && Unmoved(left, script, bigStatus) && Descends(left, 0)
    && Recorded(tried, found) && NoneLeft(tried, found, left) && FromTheEnd(script, mate)
  }

  ghost predicate Searchable<T>(tried: seq<Entry<T>>, script: seq<Entry<T>>, smlStatus: Status, bigStatus: Status) {
    Kinds(smlStatus, bigStatus) && Indexed(script) && ListsStatus(tried, script, smlStatus) && Descends(tried, 0)
  }

  lemma NothingSearched<T>(tried: seq<Entry<T>>, listed: seq<Entry<T>>, script: seq<Entry<T>>, smlStatus: Status,
                           bigStatus: Status)
    requires Kinds(smlStatus, bigStatus) && Indexed(script) && NoneMoved(script)
    requires Collected(script, smlStatus, tried, bigStatus, listed) && Descends(tried, 0) && Descends(listed, 0)
    ensures Searchable(tried, script, smlStatus, bigStatus) && Searched(tried, listed, [], map[], script, bigStatus)
  {
  }

  /** Everything a finished search promises. */
  ghost predicate SearchDone<T>(search: Search<T>, script: seq<Entry<T>>, mate: map<Entry<T>, Entry<T>>,
                                smlStatus: Status, bigStatus: Status, smlLength: nat, dontLimitMoves: bool)
    reads script
  {
    && ListsStatus(search.tried, script, smlStatus) && Descends(search.tried, 0)
    && ListsStatus(search.listed, script, bigStatus) && Descends(search.listed, 0)
    && Paired(script, mate) && FromTheEnd(script, mate)
    && (forall k :: 0 <= k < |search.tried| ==> search.tried[k] in script) && Recorded(search.tried, search.found)
    && (search.tried == [] || search.listed == [] ==> mate == map[])
    && (search.tried != [] && search.listed != [] ==>
          StopsAtLimit(search.found, |search.tried|, |search.listed|, smlLength, dontLimitMoves))
    && (forall k, y :: 0 <= k < |search.found| && y in search.listed && y.moved == None && !search.found[k] ==>
          y.value != search.tried[k].value)
  }

  /** Position |found| is matched with the first entry left of the same value, if any; `d` comparisons fail. */
  method TryMatch<T(==)>(tried: seq<Entry<T>>, left: seq<Entry<T>>, ghost found: seq<bool>, a: nat,
                         ghost mate: map<Entry<T>, Entry<T>>, ghost script: seq<Entry<T>>, ghost smlStatus: Status,
                         ghost bigStatus: Status)
    returns (left': seq<Entry<T>>, d: nat, ghost mate': map<Entry<T>, Entry<T>>)
    requires a == |found| < |tried| && Searchable(tried, script, smlStatus, bigStatus)
    requires Searched(tried, left, found, mate, script, bigStatus)
    modifies script
    ensures Searched(tried, left', found + [d < |left|], mate', script, bigStatus)
    ensures d <= |left| && (forall k :: 0 <= k < d ==> left[k].value != tried[a].value)
    ensures if d < |left| then left[d].value == tried[a].value && left' == Without(left, d) else left' == left
    ensures |left'| == if d < |left| then |left| - 1 else |left|
  {
    hide Paired, Indexed, AllDistinct, Descends, FromTheEnd;
    var item := tried[a];
    assert item in script;
    d := FindValue(left, item.value);
    left', mate' := left, mate;
    if d < |left| {
      var other := left[d];
      assert other in script && item.status != other.status;
      WithoutKeeps(left, d);
      HasIndex(script, item);
      HasIndex(script, other);
      DistinctEntries(tried, a);
      NearestTheEnd(tried, left, found, mate, script, smlStatus, bigStatus, d);
      WithoutDescends(left, d);
      MarkMoved(item, other, script, mate);
      mate' := mate[item := other][other := item];
      left' := Without(left, d);
    }
  }

  lemma WithoutDescends<T>(list: seq<Entry<T>>, d: nat)
    requires d < |list| && Descends(list, 0)
    ensures Descends(Without(list, d), 0)
  {
  }

  /** The entry tried and the first one left of its value are those nearest the end. */
  lemma NearestTheEnd<T>(tried: seq<Entry<T>>, left: seq<Entry<T>>, found: seq<bool>, mate: map<Entry<T>, Entry<T>>,
                         script: seq<Entry<T>>, smlStatus: Status, bigStatus: Status, d: nat)
    requires |found| < |tried| && Searchable(tried, script, smlStatus, bigStatus) && d < |left|
    requires Searched(tried, left, found, mate, script, bigStatus)
    requires left[d].value == tried[|found|].value
    requires forall k :: 0 <= k < d ==> left[k].value != tried[|found|].value
    ensures FromTheEnd(script, mate[tried[|found|] := left[d]][left[d] := tried[|found|]])
  {
    hide FromTheEnd, Descends;
    ItemIsNearest(tried, left, found, mate, script, smlStatus, bigStatus, d);
    OtherIsNearest(left, mate, script, bigStatus, d);
    PairsStand(script, mate);
    assert tried[|found|] in tried && left[d] in left;
    FromTheEndOn(script, mate, tried[|found|], left[d]);
  }

  lemma ItemIsNearest<T>(tried: seq<Entry<T>>, left: seq<Entry<T>>, found: seq<bool>, mate: map<Entry<T>, Entry<T>>,
                         script: seq<Entry<T>>, smlStatus: Status, bigStatus: Status, d: nat)
    requires |found| < |tried| && Searchable(tried, script, smlStatus, bigStatus) && d < |left|
    requires Searched(tried, left, found, mate, script, bigStatus)
    requires left[d].value == tried[|found|].value
    ensures Nearest(script, mate, tried[|found|])
  {
    hide FromTheEnd;
    var item, other := tried[|found|], left[d];
    assert item in tried && other in left;
    forall y | y in script && y !in mate && y != item && Alike(item, y)
      ensures Position(y) < Position(item)
    {
      var k :| 0 <= k < |tried| && tried[k] == y;
      assert k >= |found|;
    }
  }

  lemma OtherIsNearest<T>(left: seq<Entry<T>>, mate: map<Entry<T>, Entry<T>>, script: seq<Entry<T>>,
                          bigStatus: Status, d: nat)
    requires Paired(script, mate) && Unmoved(left, script, bigStatus) && Descends(left, 0) && d < |left|
    requires forall k :: 0 <= k < d ==> left[k].value != left[d].value
    ensures Nearest(script, mate, left[d])
  {
    assert left[d] in left;
    forall y | y in script && y !in mate && y != left[d] && Alike(left[d], y)
      ensures Position(y) < Position(left[d])
    {
      var k :| 0 <= k < |left| && left[k] == y;
    }
  }

  lemma PairsStand<T>(script: seq<Entry<T>>, mate: map<Entry<T>, Entry<T>>)
    requires Paired(script, mate) && Indexed(script)
    ensures TwoByTwo(mate)
  {
    forall x | x in mate
      ensures mate[x].value == x.value && x.status != mate[x].status
    {
      assert Partners(x, mate[x]);
    }
  }

  lemma HasIndex<T>(script: seq<Entry<T>>, e: Entry<T>)
    requires Indexed(script) && e in script && e.status != Retained
    ensures e.index.Some?
  {
  }

  lemma DistinctEntries<E>(s: seq<E>, a: nat)
    requires AllDistinct(s) && a < |s|
    ensures forall k :: 0 <= k < |s| && k != a ==> s[k] != s[a]
  {
  }

  /** Additions and deletions are matched from the end of the arrays on, until all were tried or the limit on
      consecutive failures is reached. */
  method PairMoves<T(==)>(notInSml: seq<Entry<T>>, listed: seq<Entry<T>>, smlLength: nat, dontLimitMoves: bool,
                          ghost script: seq<Entry<T>>, ghost smlStatus: Status, ghost bigStatus: Status)
    returns (ghost mate: map<Entry<T>, Entry<T>>, ghost search: Search<T>)
    requires Kinds(smlStatus, bigStatus) && Indexed(script) && NoneMoved(script) && notInSml != [] && listed != []
    requires Collected(script, smlStatus, notInSml, bigStatus, listed) && Descends(notInSml, 0) && Descends(listed, 0)
    modifies script
    ensures search.tried == notInSml && search.listed == listed
    ensures SearchDone(search, script, mate, smlStatus, bigStatus, smlLength, dontLimitMoves)
  {
    NothingSearched(notInSml, listed, script, smlStatus, bigStatus);
    hide Searchable, Searched, Indexed, NoneMoved, Paired, SearchDone, Matches, Failures, Descends, ListsStatus;
    hide NeverAt, Without;
    var notInBig := listed;
    var limitFailedCompares := smlLength * 10;
    var failedCompares := 0;
    var a := 0;
    mate := map[];
    ghost var found: seq<bool> := [];
    NoFailures(|listed|, limitFailedCompares);
    while (dontLimitMoves || failedCompares < limitFailedCompares) && a < |notInSml|
      invariant 0 <= a == |found| <= |notInSml| && Searched(notInSml, notInBig, found, mate, script, bigStatus)
      invariant failedCompares == Failures(found, |listed|) && |notInBig| == |listed| - Matches(found)
      invariant dontLimitMoves || NeverAt(found, |listed|, limitFailedCompares)
    {
      var before := |notInBig|;
      var d;
      notInBig, d, mate := TryMatch(notInSml, notInBig, found, a, mate, script, smlStatus, bigStatus);
      MatchesOn(found, d < before, |listed|);
      if !dontLimitMoves {
        NeverAtOn(found, d < before, |listed|, limitFailedCompares);
      }
      failedCompares := if d < before then 0 else failedCompares + d;
      found := found + [d < before];
      a := a + 1;
    }
    search := Search(notInSml, listed, found);
    SearchEnds(search, notInBig, mate, script, smlStatus, bigStatus, smlLength, dontLimitMoves);
  }

  lemma NoFailures(listed: int, limit: int)
    ensures Failures([], listed) == 0 && Matches([]) == 0 && NeverAt([], listed, limit)
  {
  }

  lemma SearchEnds<T>(search: Search<T>, left: seq<Entry<T>>, mate: map<Entry<T>, Entry<T>>, script: seq<Entry<T>>,
                      smlStatus: Status, bigStatus: Status, smlLength: nat, dontLimitMoves: bool)
    requires Searchable(search.tried, script, smlStatus, bigStatus)
    requires Searched(search.tried, left, search.found, mate, script, bigStatus)
    requires ListsStatus(search.listed, script, bigStatus) && Descends(search.listed, 0)
    requires search.tried != [] && search.listed != []
    requires StopsAtLimit(search.found, |search.tried|, |search.listed|, smlLength, dontLimitMoves)
    ensures SearchDone(search, script, mate, smlStatus, bigStatus, smlLength, dontLimitMoves)
  {
  }

  /** A search that may not be cut short, or has no more pairs than the limit allows, leaves none unpaired. */
  lemma SearchExhausts<T>(search: Search<T>, script: seq<Entry<T>>, mate: map<Entry<T>, Entry<T>>,
                          smlStatus: Status, bigStatus: Status, smlLength: nat, dontLimitMoves: bool)
    requires SearchDone(search, script, mate, smlStatus, bigStatus, smlLength, dontLimitMoves)
    requires dontLimitMoves || WithinLimit(|search.tried|, |search.listed|, smlLength)
    ensures Exhausted(script, smlStatus, bigStatus)
  {
    hide WithinLimit, Failures, Descends, FromTheEnd, Paired;
    if search.tried != [] && search.listed != [] {
      if |search.found| < |search.tried| {
        FailuresBounded(search.found, |search.listed|);
        var failures := Failures(search.found, |search.listed|);
        LimitNotReached(|search.found|, |search.tried|, |search.listed|, failures, smlLength);
        assert false;
      }
      forall x, y | x in script && y in script && x.status == smlStatus && y.status == bigStatus && x.moved == None &&
                    y.moved == None
        ensures x.value != y.value
      {
        var k :| 0 <= k < |search.tried| && search.tried[k] == x;
        assert !search.found[k];
      }
    }
  }

  // ----- Comparing -----

  lemma ReversedHas<E>(s: seq<E>)
    ensures forall e :: e in Reversed(s) <==> e in s
    ensures AllDistinct(s) ==> AllDistinct(Reversed(s))
  {
  }

  lemma {:induction false} AccountsIndexed<T>(script: seq<Entry<T>>, a: seq<T>, b: seq<T>, sml: Status, big: Status,
                                              i: nat, j: nat)
    requires Kinds(sml, big) && Accounts(script, a, b, sml, big, i, j)
    ensures Indexed(script)
    decreases |script|
  {
    if script != [] {
      var e, rest := script[0], script[1..];
      if e.status == sml {
        AccountsIndexed(rest, a, b, sml, big, i, j + 1);
      } else if e.status == big {
        AccountsIndexed(rest, a, b, sml, big, i + 1, j);
      } else {
        AccountsIndexed(rest, a, b, sml, big, i + 1, j + 1);
      }
      assert forall x :: x in script ==> x == e || x in rest;
    }
  }

  /** A finished script: its entries are new and distinct, and `mate` pairs its moved ones. */
  twostate predicate Finished<T>(new script: seq<Entry<T>>, new mate: map<Entry<T>, Entry<T>>)
    reads script
  {
    AllDistinct(script) && Paired(script, mate) && forall e :: e in script ==> fresh(e)
  }

  method CompareSmallArrayToBigArray<T(==)>(sml: seq<T>, big: seq<T>, notInSmlStatus: Status, notInBigStatus: Status,
                                            dontLimitMoves: bool)
    returns (editScript: seq<Entry<T>>, ghost mate: map<Entry<T>, Entry<T>>, ghost search: Search<T>)
    requires |sml| <= |big| && Kinds(notInSmlStatus, notInBigStatus)
    ensures Accounts(editScript, sml, big, notInSmlStatus, notInBigStatus, 0, 0)
    ensures EditCount(editScript) == Cell(sml, big, |sml|, |big|) - 1
    ensures IsPreferred(sml, big, |sml|, |big|, MovesOf(editScript, notInSmlStatus, notInBigStatus))
    ensures Finished(editScript, mate)
    ensures SearchDone(search, editScript, mate, notInSmlStatus, notInBigStatus, |sml|, dontLimitMoves)
    ensures |search.tried| == CountOf(editScript, notInSmlStatus) <= |big|
    ensures |search.listed| == CountOf(editScript, notInBigStatus) <= |sml|
  {
    hide Walked, Ordered, Accounts, EditCount, Cell, Filled, Collected, Reversed, Indexed, NoneMoved, IsPreferred;
    hide SearchDone, MovesOf, CountOf, Descends;
    var matrix := FillMatrix(sml, big);
    var pushed, notInSml, notInBig := WalkMatrix(sml, big, matrix, notInSmlStatus, notInBigStatus);
    WalkedEnd(sml, big, notInSmlStatus, notInBigStatus, pushed, notInSml, notInBig);
    OrderedEnd(sml, big, notInSmlStatus, notInBigStatus, pushed, notInSml, notInBig);
    forall k | 0 <= k < |pushed|
      ensures fresh(pushed[k])
    {
      assert pushed[k] in pushed;
    }
    mate, search := PairWhenBoth(notInSml, notInBig, |sml|, dontLimitMoves, pushed, notInSmlStatus, notInBigStatus);
    ReversedHas(pushed);
    editScript := Reversed(pushed);
    SameMembers(pushed, editScript, mate, search, notInSmlStatus, notInBigStatus, |sml|, dontLimitMoves);
  }

  /** Without both kinds of entries there is nothing to pair. */
  method PairWhenBoth<T(==)>(notInSml: seq<Entry<T>>, notInBig: seq<Entry<T>>, smlLength: nat, dontLimitMoves: bool,
                             ghost script: seq<Entry<T>>, ghost sml: Status, ghost big: Status)
    returns (ghost mate: map<Entry<T>, Entry<T>>, ghost search: Search<T>)
    requires Kinds(sml, big) && Indexed(script) && NoneMoved(script)
    requires Collected(script, sml, notInSml, big, notInBig) && Descends(notInSml, 0) && Descends(notInBig, 0)
    modifies script
    ensures search.tried == notInSml && search.listed == notInBig
    ensures Paired(script, mate) && SearchDone(search, script, mate, sml, big, smlLength, dontLimitMoves)
  {
    mate, search := map[], Search(notInSml, notInBig, []);
    if |notInSml| > 0 && |notInBig| > 0 {
      mate, search := PairMoves(notInSml, notInBig, smlLength, dontLimitMoves, script, sml, big);
    }
  }

  lemma SameMembers<T>(s: seq<Entry<T>>, t: seq<Entry<T>>, mate: map<Entry<T>, Entry<T>>, search: Search<T>,
                       sml: Status, big: Status, smlLength: nat, dontLimitMoves: bool)
    requires SearchDone(search, s, mate, sml, big, smlLength, dontLimitMoves) && forall e :: e in t <==> e in s
    ensures Paired(t, mate) && SearchDone(search, t, mate, sml, big, smlLength, dontLimitMoves)
  {
    hide StopsAtLimit, Descends;
  }

  lemma OrderedEnd<T>(a: seq<T>, b: seq<T>, sml: Status, big: Status, pushed: seq<Entry<T>>, notInSml: seq<Entry<T>>,
                      notInBig: seq<Entry<T>>)
    requires |a| <= |b| && Ordered(a, b, sml, big, 0, 0, pushed, notInSml, notInBig)
    ensures IsPreferred(a, b, |a|, |b|, MovesOf(Reversed(pushed), sml, big))
    ensures Descends(notInSml, 0) && Descends(notInBig, 0)
    ensures |notInSml| == CountOf(Reversed(pushed), sml) && |notInBig| == CountOf(Reversed(pushed), big)
  {
    hide Cell, StepBack, IsPreferred, Reversed, MovesOf, CountOf;
    WalkBackIsPreferred(a, b, |a|, |b|);
    assert WalkBack(a, b, 0, 0) == [];
    assert [] + MovesOf(Reversed(pushed), sml, big) == MovesOf(Reversed(pushed), sml, big);
  }

  lemma WalkedEnd<T>(a: seq<T>, b: seq<T>, sml: Status, big: Status, pushed: seq<Entry<T>>, notInSml: seq<Entry<T>>,
                     notInBig: seq<Entry<T>>)
    requires |a| <= |b| && Kinds(sml, big) && Walked(a, b, sml, big, 0, 0, pushed, notInSml, notInBig)
    ensures Accounts(Reversed(pushed), a, b, sml, big, 0, 0)
    ensures EditCount(Reversed(pushed)) == Cell(a, b, |a|, |b|) - 1
    ensures Collected(pushed, sml, notInSml, big, notInBig) && Indexed(pushed)
  {
    AccountsIndexed(Reversed(pushed), a, b, sml, big, 0, 0);
    ReversedHas(pushed);
  }

  /** The fewest edits over all paths in the band of the two arrays, the shorter one first. */
  ghost predicate LeastInBand<T>(a: seq<T>, b: seq<T>, edits: nat) {
    if |a| <= |b| then
      && (exists path :: IsPath(a, b, |a|, |b|, path) && Edits(path) == edits)
      && (forall path :: IsPath(a, b, |a|, |b|, path) ==> edits <= Edits(path))
    else
      && (exists path :: IsPath(b, a, |b|, |a|, path) && Edits(path) == edits)
      && (forall path :: IsPath(b, a, |b|, |a|, path) ==> edits <= Edits(path))
  }

  /** The fewest edits over all paths whatever, the shorter array first. */
  ghost predicate LeastOfAll<T>(a: seq<T>, b: seq<T>, edits: nat) {
    if |a| <= |b| then IsLeast(a, b, edits) else IsLeast(b, a, edits)
  }

  /** Equal entries can all be kept in the band, or the script has too few edits for a path to leave it. */
  ghost predicate BandSuffices<T>(a: seq<T>, b: seq<T>, edits: nat) {
    if |a| <= |b| then EqualsAreKeepable(a, b) || edits <= OutsideCost(|a|, |b|)
    else EqualsAreKeepable(b, a) || edits <= OutsideCost(|b|, |a|)
  }

  lemma BandSufficesIsLeast<T>(a: seq<T>, b: seq<T>, edits: nat)
    requires BandSuffices(a, b, edits)
    requires edits == if |a| <= |b| then ScriptEdits(a, b) else ScriptEdits(b, a)
    ensures LeastOfAll(a, b, edits)
  {
    var (sml, big) := if |a| <= |b| then (a, b) else (b, a);
    if EqualsAreKeepable(sml, big) {
      KeepableIsShortest(sml, big);
    } else {
      FewEditsAreShortest(sml, big);
    }
  }

  /** The steps of the script, seen from the end of the arrays, are the preferred ones of the shorter against the
      longer array. */
  ghost predicate PrefersTheLonger<T>(script: seq<Entry<T>>, past: seq<T>, target: seq<T>) {
    if |past| <= |target| then IsPreferred(past, target, |past|, |target|, MovesOf(script, Added, Deleted))
    else IsPreferred(target, past, |target|, |past|, MovesOf(script, Deleted, Added))
  }

  /** The moves found in the script: those the search finds that goes through what only the longer array has. */
  ghost predicate MovesFound<T>(search: Search<T>, script: seq<Entry<T>>, mate: map<Entry<T>, Entry<T>>, past: seq<T>,
                                target: seq<T>, dontLimitMoves: bool)
    reads script
  {
    if |past| <= |target| then SearchDone(search, script, mate, Added, Deleted, |past|, dontLimitMoves)
    else SearchDone(search, script, mate, Deleted, Added, |target|, dontLimitMoves)
  }

  function Shorter<T>(a: seq<T>, b: seq<T>): nat {
    if |a| <= |b| then |a| else |b|
  }

  /** The script turns the old array into the new one, in as few edits as the band allows and by preferred
      steps, and pairs deletions with additions of the same value as the search finds them; without a limit,
      or with no more pairs than the limit allows, it pairs as many as it can. */
  method CompareArrays<T(==)>(oldArray: seq<T>, newArray: seq<T>, dontLimitMoves: bool)
    returns (editScript: seq<Entry<T>>, ghost mate: map<Entry<T>, Entry<T>>, ghost search: Search<T>)
    ensures Turns(editScript, oldArray, newArray, 0, 0)
    ensures LeastInBand(oldArray, newArray, EditCount(editScript))
    ensures BandSuffices(oldArray, newArray, EditCount(editScript)) ==>
              LeastOfAll(oldArray, newArray, EditCount(editScript))
    ensures PrefersTheLonger(editScript, oldArray, newArray)
    ensures Finished(editScript, mate)
    ensures MovesFound(search, editScript, mate, oldArray, newArray, dontLimitMoves)
    ensures dontLimitMoves ||
            WithinLimit(CountOf(editScript, Added), CountOf(editScript, Deleted), Shorter(oldArray, newArray)) ==>
              Exhausted(editScript, Added, Deleted)
    ensures dontLimitMoves || (|oldArray| <= 10 && |newArray| <= 10) ==> Exhausted(editScript, Added, Deleted)
  {
    hide SearchDone, IsPreferred, MovesOf, CountOf, EditCount, Accounts, Cell, Exhausted, Paired;
    if |oldArray| <= |newArray| {
      editScript, mate, search := CompareSmallArrayToBigArray(oldArray, newArray, Added, Deleted, dontLimitMoves);
      BandOptimality(oldArray, newArray, |oldArray|, |newArray|);
    } else {
      editScript, mate, search := CompareSmallArrayToBigArray(newArray, oldArray, Deleted, Added, dontLimitMoves);
      AccountsSwapped(editScript, newArray, oldArray, 0, 0);
      BandOptimality(newArray, oldArray, |newArray|, |oldArray|);
    }
    if BandSuffices(oldArray, newArray, EditCount(editScript)) {
      BandSufficesIsLeast(oldArray, newArray, EditCount(editScript));
    }
    CompareExhausts(search, editScript, mate, oldArray, newArray, dontLimitMoves);
  }

  lemma CompareExhausts<T>(search: Search<T>, script: seq<Entry<T>>, mate: map<Entry<T>, Entry<T>>, past: seq<T>,
                           target: seq<T>, dontLimitMoves: bool)
    requires MovesFound(search, script, mate, past, target, dontLimitMoves)
    requires var (sml, big) := if |past| <= |target| then (Deleted, Added) else (Added, Deleted);
             |search.tried| == CountOf(script, big) && |search.listed| == CountOf(script, sml) <= Shorter(past, target)
    requires |past| <= 10 && |target| <= 10 ==> |search.tried| <= 10
    ensures dontLimitMoves || WithinLimit(CountOf(script, Added), CountOf(script, Deleted), Shorter(past, target)) ==>
              Exhausted(script, Added, Deleted)
    ensures dontLimitMoves || (|past| <= 10 && |target| <= 10) ==> Exhausted(script, Added, Deleted)
  {
    hide SearchDone, WithinLimit, CountOf;
    var short := Shorter(past, target);
    EitherWayWithin(CountOf(script, Added), CountOf(script, Deleted), short);
    if |past| <= 10 && |target| <= 10 {
      ShortArraysWithin(|search.tried|, |search.listed|, short);
    }
    if dontLimitMoves || WithinLimit(|search.tried|, |search.listed|, short) {
      if |past| <= |target| {
        SearchExhausts(search, script, mate, Added, Deleted, short, dontLimitMoves);
      } else {
        SearchExhausts(search, script, mate, Deleted, Added, short, dontLimitMoves);
      }
    }
  }
}
