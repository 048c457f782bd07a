/** The order in which a built matrix lists its cells and its comparisons. */
module MatrixOrder {
  import opened OperatorParameters
  import opened Manifests
  import opened Trials
  import opened Sorting
  import opened Matrix
  import opened MatrixProperties

  // ------------------------------------------------------------------ texts and names

  /** The texts agree before k, and there the first one ends or has the lesser character. */
  predicate Diverges(a: string, b: string, k: int) {
    && 0 <= k <= |a| && k < |b| && a[..k] == b[..k]
    && (k < |a| ==> a[k] < b[k])
  }

  lemma {:induction false} DivergesTail(a: string, b: string, k: nat)
    requires a != [] && b != [] && a[0] == b[0] && k <= |a| - 1 && k < |b| - 1
    ensures Diverges(a[1..], b[1..], k) <==> Diverges(a, b, k + 1)
  {
    assert a[..k + 1] == [a[0]] + a[1..][..k] && b[..k + 1] == [b[0]] + b[1..][..k];
    assert a[1..][..k] == a[..k + 1][1..] && b[1..][..k] == b[..k + 1][1..];
  }

  lemma {:induction false} SameHead(a: string, b: string, k: int)
    requires k > 0 && Diverges(a, b, k)
    ensures a != [] && b != [] && a[0] == b[0]
  {
    assert a[..k][0] == b[..k][0];
  }

  /** The order of texts is that of their first difference. */
  lemma {:induction false} TextMeans(a: string, b: string)
    ensures TextLess(a, b) <==> exists k :: Diverges(a, b, k)
  {
    if b != [] && (a == [] || a[0] < b[0]) {
      assert Diverges(a, b, 0);
    } else if b != [] && a[0] == b[0] {
      TextMeans(a[1..], b[1..]);
      if TextLess(a, b) {
        var k :| Diverges(a[1..], b[1..], k);
        DivergesTail(a, b, k);
      }
      if k :| Diverges(a, b, k) {
        assert k > 0;
        DivergesTail(a, b, k - 1);
      }
    } else if k :| Diverges(a, b, k) {
      if k > 0 { SameHead(a, b, k); }
    }
  }

  /** The registered operators by family, then number. */
  function Rank(op: OperatorId): nat {
    match op
    case A1 => 1 case A2 => 2
    case C1 => 3 case C2 => 4
    case F1 => 5 case F2 => 6 case F3 => 7 case F4 => 8 case F5 => 9 case F6 => 10 case F7 => 11
    case T1 => 12 case T2 => 13 case T3 => 14
  }

  lemma {:induction false} TextsByHead(a: string, b: string)
    requires |a| >= 2 && |b| >= 2 && (a[0] < b[0] || (a[0] == b[0] && a[1] < b[1]))
    ensures TextLess(a, b)
  {
    TextMeans(a, b);
    assert Diverges(a, b, if a[0] < b[0] then 0 else 1);
  }

  lemma {:induction false} RankedHeads(a: OperatorId, b: OperatorId)
    requires Rank(a) < Rank(b)
    ensures Family(a) < Family(b) || (Family(a) == Family(b) && Digit(a) < Digit(b))
  {
  }

  lemma {:induction false} NamesFollow(a: OperatorId, b: OperatorId)
    requires Rank(a) < Rank(b)
    ensures TextLess(OperatorName(a), OperatorName(b))
  {
    RankedHeads(a, b);
    TextsByHead(OperatorName(a), OperatorName(b));
  }

  lemma {:induction false} RankUnique(a: OperatorId, b: OperatorId)
    requires Rank(a) == Rank(b)
    ensures a == b
  {
  }

  /** Operator names are ordered as the operators are. */
  lemma {:induction false} NamesRanked(a: OperatorId, b: OperatorId)
    ensures TextLess(OperatorName(a), OperatorName(b)) <==> Rank(a) < Rank(b)
  {
    TextTotal(OperatorName(a), OperatorName(b));
    if Rank(a) < Rank(b) {
      NamesFollow(a, b);
    } else if Rank(b) < Rank(a) {
      NamesFollow(b, a);
    } else {
      RankUnique(a, b);
    }
  }

  // ------------------------------------------------------------------ cells

  /** Of two fault cells of one condition: the lower operator first, then the lower severity, then the
      earlier restoration (which only restored cells have). */
  predicate FaultsInOrder(a: Cell, b: Cell) {
    a.fault.Some? && b.fault.Some? &&
    var (x, y) := (a.fault.value.instance, b.fault.value.instance);
    && Rank(x.op) <= Rank(y.op)
    && (x.op == y.op ==> x.level <= y.level)
    && (x.op == y.op && x.level == y.level && a.trial.restorationIndex.Some? && b.trial.restorationIndex.Some? ==>
          a.trial.restorationIndex.value <= b.trial.restorationIndex.value)
  }

  /** The clean cell, the no-touch cell, the faulted ones in order, then the restored ones in order. */
  predicate CellsInOrder(cells: seq<Cell>) {
    && |cells| >= 2 && cells[0].trial.condition.Clean? && cells[1].trial.condition.NoTouch?
    && (forall i :: 2 <= i < |cells| ==> cells[i].trial.condition.Faulted? || cells[i].trial.condition.Restored?)
    && (forall i, j :: 2 <= i < j < |cells| ==>
          && (cells[j].trial.condition.Faulted? ==> cells[i].trial.condition.Faulted?)
          && (cells[i].trial.condition == cells[j].trial.condition ==> FaultsInOrder(cells[i], cells[j])))
  }

  lemma {:induction false} NotBelowInOrder(d: Digests, a: Cell, b: Cell)
    requires CellOk(a) && CellOk(b) && TrialIndexed(a) && TrialIndexed(b) && !CellLess(d, b, a)
    requires a.trial.condition == b.trial.condition
    requires a.trial.condition.Faulted? || a.trial.condition.Restored?
    ensures FaultsInOrder(a, b)
  {
    var x, y := a.fault.value.instance.op, b.fault.value.instance.op;
    NamesRanked(y, x);
    NamesRanked(x, y);
    if OperatorName(x) == OperatorName(y) { NamesDistinct(x, y); }
  }

  /** Only a restored trial has a restoration index. */
  predicate TrialIndexed(c: Cell) {
    c.trial.restorationIndex.Some? <==> c.trial.condition.Restored?
  }

  lemma {:induction false} NotTwice(cells: seq<Cell>, condition: Condition, i: nat, j: nat)
    requires Count(cells, condition) == 1 && i < j < |cells| && cells[i].trial.condition == condition
    ensures cells[j].trial.condition != condition
  {
    if cells[j].trial.condition == condition { Counted(cells[1..], condition, j - 1); }
    if i > 0 {
      Counted(cells[1..], condition, i - 1);
      NotTwice(cells[1..], condition, i - 1, j - 1);
    }
  }

  lemma {:induction false} Counted(cells: seq<Cell>, condition: Condition, i: nat)
    requires i < |cells| && cells[i].trial.condition == condition
    ensures Count(cells, condition) >= 1
  {
    if i > 0 { Counted(cells[1..], condition, i - 1); }
  }

  lemma {:induction false} CountedSomewhere(cells: seq<Cell>, condition: Condition) returns (k: nat)
    requires Count(cells, condition) >= 1
    ensures k < |cells| && cells[k].trial.condition == condition
  {
    if cells[0].trial.condition == condition { k := 0; }
    else {
      k := CountedSomewhere(cells[1..], condition);
      k := k + 1;
    }
  }

  /** The two baselines come first. */
  lemma {:induction false} BaselinesFirst(d: Digests, cells: seq<Cell>)
    requires IsSorted(CellOrder(d), cells)
    requires Count(cells, Condition.Clean) == 1 && Count(cells, NoTouch) == 1
    ensures |cells| >= 2 && cells[0].trial.condition.Clean? && cells[1].trial.condition.NoTouch?
    ensures forall i :: 2 <= i < |cells| ==> cells[i].trial.condition.Faulted? || cells[i].trial.condition.Restored?
  {
    var k := CountedSomewhere(cells, Condition.Clean);
    var n := CountedSomewhere(cells, NoTouch);
    if k > 0 {
      assert !CellOrder(d)(cells[k], cells[0]);
      NotTwice(cells, Condition.Clean, 0, k);
    }
    NotTwice(cells, Condition.Clean, 0, 1);
    if n > 1 {
      assert !CellOrder(d)(cells[n], cells[1]);
      NotTwice(cells, NoTouch, 1, n);
    }
    forall i | 2 <= i < |cells| ensures cells[i].trial.condition.Faulted? || cells[i].trial.condition.Restored? {
      NotTwice(cells, Condition.Clean, 0, i);
      NotTwice(cells, NoTouch, 1, i);
    }
  }

  lemma {:induction false} SortedInOrder(d: Digests, cells: seq<Cell>)
    requires IsSorted(CellOrder(d), cells) && Count(cells, Condition.Clean) == 1 && Count(cells, NoTouch) == 1
    requires forall c <- cells :: CellOk(c) && TrialIndexed(c)
    ensures CellsInOrder(cells)
  {
    BaselinesFirst(d, cells);
    forall i, j | 2 <= i < j < |cells|
      ensures cells[j].trial.condition.Faulted? ==> cells[i].trial.condition.Faulted?
      ensures cells[i].trial.condition == cells[j].trial.condition ==> FaultsInOrder(cells[i], cells[j])
    {
      assert !CellOrder(d)(cells[j], cells[i]);
      assert cells[i] in cells && cells[j] in cells;
      if cells[i].trial.condition == cells[j].trial.condition { NotBelowInOrder(d, cells[i], cells[j]); }
    }
  }

  // ------------------------------------------------------------------ comparisons

  /** The lower operator first, then the lower severity, the lesser focus, the earlier restoration. */
  ghost predicate RowsOrdered(a: Comparison, b: Comparison) {
    && Rank(a.op) <= Rank(b.op)
    && (a.op == b.op ==> a.level <= b.level)
    && (a.op == b.op && a.level == b.level ==>
          a.focus == b.focus || exists k :: Diverges(a.focus, b.focus, k))
    && (a.op == b.op && a.level == b.level && a.focus == b.focus ==> a.index <= b.index)
  }

  ghost predicate RowsInOrder(rows: seq<Comparison>) {
    forall i, j :: 0 <= i < j < |rows| ==> RowsOrdered(rows[i], rows[j])
  }

  predicate RowOfPoint(row: Comparison, p: GridPoint) {
    row.op == p.fault.instance.op && row.level == p.fault.instance.level && row.focus == p.focus
    && row.index == p.index
  }

  lemma {:induction false} PointsInOrder(d: Digests, p: GridPoint, q: GridPoint, a: Comparison, b: Comparison)
    requires !PointLess(d, q, p) && RowOfPoint(a, p) && RowOfPoint(b, q)
    ensures RowsOrdered(a, b)
  {
    NamesRanked(b.op, a.op);
    NamesRanked(a.op, b.op);
    if Rank(a.op) == Rank(b.op) && a.level == b.level && a.focus != b.focus {
      TextTotal(a.focus, b.focus);
      TextMeans(a.focus, b.focus);
    }
  }

  // ------------------------------------------------------------------ the matrix

  lemma {:induction false} CollectedCellOk(clean: TrialManifest, points: seq<GridPoint>, mode: RestorationMode,
                                           control: Control, cells: seq<Cell>, c: Cell)
    requires clean.restorationIndex.None?
    requires Collects(clean, points, mode, control, cells) && c in cells
    ensures CellOk(c) && TrialIndexed(c)
  {
    var k := CellRow(clean, points, mode, control, cells, c);
    RowCellsOk(clean, points[k], mode, control);
  }

  lemma {:induction false} RowCellsOk(clean: TrialManifest, p: GridPoint, mode: RestorationMode, control: Control)
    requires RowOf(clean, p, mode, control).Returned? && clean.restorationIndex.None?
    ensures forall c <- CellsOf(RowOf(clean, p, mode, control).value) :: CellOk(c) && TrialIndexed(c)
  {
  }

  lemma {:induction false} RowsFollow(d: Digests, points: seq<GridPoint>, rowOf: RowBuilder, mode: RestorationMode,
                                      rows: seq<Comparison>)
    requires IsSorted(PointOrder(d), points)
    requires RowsExist(rowOf, points) && RowsCollected(points, rowOf, |points|, mode, rows)
    ensures RowsInOrder(rows)
  {
    forall i, j | 0 <= i < j < |rows| ensures RowsOrdered(rows[i], rows[j]) {
      assert !PointOrder(d)(points[j], points[i]);
      PointsInOrder(d, points[i], points[j], rows[i], rows[j]);
    }
  }

  /** Every built matrix lists the clean cell, the no-touch cell, the faulted cells and the restored ones,
      and its comparisons, in the benchmark's order. */
  lemma {:induction false} MatrixInOrder(d: Digests, id: string, kind: GridKind, clean: TrialManifest,
                                         points: seq<GridPoint>, mode: RestorationMode, control: Control)
    requires Collisionless(d) && TrialOk(clean)
    requires Build(d, id, kind, clean, points, mode, control).Returned?
    ensures var m := Build(d, id, kind, clean, points, mode, control).value;
            CellsInOrder(m.cells) && RowsInOrder(m.comparisons) && |m.comparisons| == |points|
  {
    var ordered, rowOf := Sort(PointOrder(d), points), RowBuilderOf(clean, mode, control);
    var m := Build(d, id, kind, clean, points, mode, control).value;
    PointOrderTotal(d);
    SortSorts(PointOrder(d), points);
    CollectExact(ordered, rowOf, |ordered|, mode);
    assert RowsExist(rowOf, ordered);
    CollectCollects(ordered, rowOf, |ordered|, mode);
    RowsFollow(d, ordered, rowOf, mode, m.comparisons);
    var cells := Collect(ordered, rowOf, |ordered|, mode).value.cells;
    CollectedInOrder(d, clean, ordered, mode, control, cells, m);
  }

  lemma {:induction false} CollectedInOrder(d: Digests, clean: TrialManifest, ordered: seq<GridPoint>,
                                            mode: RestorationMode, control: Control, cells: seq<Cell>,
                                            m: MatrixManifest)
    requires Collisionless(d) && clean.restorationIndex.None?
    requires Collects(clean, ordered, mode, control, cells)
    requires m.cells == Sort(CellOrder(d), cells) && InventoryOk(m)
    ensures CellsInOrder(m.cells)
  {
    CellOrderTotal(d);
    SortSorts(CellOrder(d), cells);
    SortedCells(d, ordered, RowBuilderOf(clean, mode, control), cells);
    forall c <- m.cells ensures CellOk(c) && TrialIndexed(c) {
      CollectedCellOk(clean, ordered, mode, control, m.cells, c);
    }
    SortedInOrder(d, m.cells);
  }
}
