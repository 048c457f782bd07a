/** How many cells a primary matrix has. */
module MatrixCounts {
  import opened OperatorParameters
  import opened Manifests
  import opened Trials
  import opened Sorting
  import opened Matrix
  import opened MatrixProperties

  // ------------------------------------------------------------------ pigeonhole

  lemma {:induction false} ElementsBound<T>(s: seq<T>)
    ensures |set x | x in s| <= |s|
    ensures |set x | x in s| == |s| ==> Distinct(s)
  {
    if s != [] {
      var front, last := s[..|s| - 1], s[|s| - 1];
      ElementsBound(front);
      assert s == front + [last];
      assert (set x | x in s) == (set x | x in front) + {last};
    }
  }

  lemma {:induction false} PairsForNext(front: seq<OperatorId>, last: OperatorId)
    requires last !in front
    ensures |PairsFor(front + [last])| == |PairsFor(front)| + 5
  {
    var five := set level | 1 <= level <= 5 :: (last, level);
    var all := PairsFor(front + [last]);
    forall pair ensures pair in all <==> pair in PairsFor(front) || pair in five {
      assert pair.0 in front + [last] <==> pair.0 in front || pair.0 == last;
    }
    assert all == PairsFor(front) + five;
    assert PairsFor(front) !! five;
    FiveLevels(last);
  }

  lemma {:induction false} FiveLevels(op: OperatorId)
    ensures |set level | 1 <= level <= 5 :: (op, level)| == 5
  {
    assert (set level | 1 <= level <= 5 :: (op, level)) == {(op, 1), (op, 2), (op, 3), (op, 4), (op, 5)};
  }

  lemma {:induction false} PairsForCount(ops: seq<OperatorId>)
    requires Distinct(ops)
    ensures |PairsFor(ops)| == 5 * |ops|
  {
    if ops == [] {
      assert PairsFor(ops) == {};
    } else {
      var front, last := ops[..|ops| - 1], ops[|ops| - 1];
      assert ops == front + [last];
      PairsForCount(front);
      PairsForNext(front, last);
    }
  }

  function PairOf(p: GridPoint): (OperatorId, int) {
    (p.fault.instance.op, p.fault.instance.level)
  }

  function PairsOf(points: seq<GridPoint>): seq<(OperatorId, int)> {
    seq(|points|, i requires 0 <= i < |points| => PairOf(points[i]))
  }

  /** Seventy points that cover fourteen operators at five severities never repeat a pair. */
  lemma {:induction false} CompleteGridIsExact(points: seq<GridPoint>)
    requires PointsOk(points) && GridComplete(points)
    ensures Distinct(PairsOf(points))
  {
    var pairs := PairsOf(points);
    forall pair | pair in PairsFor(OPERATORS) ensures pair in pairs {
      assert PointAt(points, pair.0, pair.1);
      var p :| p in points && p.fault.instance.op == pair.0 && p.fault.instance.level == pair.1;
      var k :| 0 <= k < |points| && points[k] == p;
      assert pairs[k] == pair;
    }
    PairsForCount(OPERATORS);
    Subset(PairsFor(OPERATORS), set x | x in pairs);
    ElementsBound(pairs);
  }

  lemma {:induction false} Subset<T>(a: set<T>, b: set<T>)
    requires a <= b
    ensures |a| <= |b|
  {
    assert b == a + (b - a);
  }

  // ------------------------------------------------------------------ counting cells

  lemma {:induction false} CountAppend(cells: seq<Cell>, c: Cell, condition: Condition)
    ensures Count(cells + [c], condition) == Count(cells, condition) + if c.trial.condition == condition then 1 else 0
  {
    if cells == [] {
      assert cells + [c] == [c];
    } else {
      assert (cells + [c])[1..] == cells[1..] + [c];
      CountAppend(cells[1..], c, condition);
    }
  }

  lemma {:induction false} CountInsert(less: (Cell, Cell) -> bool, x: Cell, s: seq<Cell>, condition: Condition)
    ensures Count(Insert(less, x, s), condition) == Count([x] + s, condition)
  {
    if s != [] && !less(x, s[0]) {
      CountInsert(less, x, s[1..], condition);
      var r := Insert(less, x, s);
      assert r[1..] == Insert(less, x, s[1..]);
      assert ([x] + s[1..])[1..] == s[1..] && ([x] + s)[1..] == s;
    }
  }

  /** Sorting keeps how many cells there are of each condition. */
  lemma {:induction false} CountSort(less: (Cell, Cell) -> bool, s: seq<Cell>, condition: Condition)
    ensures Count(Sort(less, s), condition) == Count(s, condition)
  {
    if s != [] {
      CountSort(less, s[1..], condition);
      CountInsert(less, s[0], Sort(less, s[1..]), condition);
      assert ([s[0]] + Sort(less, s[1..]))[1..] == Sort(less, s[1..]);
    }
  }

  /** One clean and one no-touch cell, and n faulted and n restored ones. */
  predicate Balanced(cells: seq<Cell>, n: nat) {
    && |cells| == (if n == 0 then 0 else 2 * n + 2)
    && Count(cells, Condition.Clean) == Count(cells, NoTouch) == (if n == 0 then 0 else 1)
    && Count(cells, Faulted) == Count(cells, Restored) == n
  }

  lemma {:induction false} BalancedFirst(r: Row)
    requires r.clean.trial.condition.Clean? && r.noTouch.trial.condition.NoTouch?
    requires r.faulted.trial.condition.Faulted? && r.restored.trial.condition.Restored?
    ensures Balanced(AddAll([], CellsOf(r)), 1)
  {
    AddTwo([], CellsOf(r));
    var two := [r.clean, r.noTouch];
    AddTwo(two, CellsOf(r)[2..]);
    AddSplit([], CellsOf(r), 2);
    assert CellsOf(r)[..2] == two && CellsOf(r)[2..] == [r.faulted, r.restored];
    AddTwo([], two);
    assert [] + [r.clean] + [r.noTouch] == two;
    CountBoth([], r.clean, r.noTouch);
    CountBoth(two, r.faulted, r.restored);
  }

  lemma {:induction false} AddSplit(cells: seq<Cell>, more: seq<Cell>, n: nat)
    requires n <= |more|
    ensures AddAll(cells, more) == AddAll(AddAll(cells, more[..n]), more[n..])
    decreases |more|
  {
    if n == |more| {
      assert more[..n] == more;
    } else {
      var front := more[..|more| - 1];
      AddSplit(cells, front, n);
      assert front[..n] == more[..n] && front[n..] == more[n..][..|more| - n - 1];
    }
  }

  /** Two cells that are absent are appended, two that are present change nothing. */
  lemma {:induction false} AddTwo(cells: seq<Cell>, more: seq<Cell>)
    ensures |more| == 2 && more[0] !in cells && more[1] !in cells && more[0] != more[1] ==>
              AddAll(cells, more) == cells + [more[0]] + [more[1]]
    ensures |more| == 2 && more[0] in cells && more[1] in cells ==> AddAll(cells, more) == cells
  {
    if |more| == 2 {
      assert more[..1] == [more[0]] && more[..1][..0] == [];
      assert AddAll(cells, []) == cells;
      assert AddAll(cells, more[..1]) == SetDefault(cells, more[0]);
    }
  }

  function Ones(a: Cell, b: Cell, condition: Condition): nat {
    (if a.trial.condition == condition then 1 else 0) + (if b.trial.condition == condition then 1 else 0)
  }

  lemma {:induction false} CountBoth(cells: seq<Cell>, a: Cell, b: Cell)
    ensures forall condition :: Count(cells + [a] + [b], condition) == Count(cells, condition) + Ones(a, b, condition)
  {
    forall condition ensures Count(cells + [a] + [b], condition) == Count(cells, condition) + Ones(a, b, condition) {
      CountAppend(cells, a, condition);
      CountAppend(cells + [a], b, condition);
    }
  }

  lemma {:induction false} BalancedNext(cells: seq<Cell>, n: nat, r: Row)
    requires n >= 1 && Balanced(cells, n) && r.clean in cells && r.noTouch in cells
    requires r.faulted !in cells && r.restored !in cells
    requires r.faulted.trial.condition.Faulted? && r.restored.trial.condition.Restored?
    ensures Balanced(AddAll(cells, CellsOf(r)), n + 1)
  {
    AddSplit(cells, CellsOf(r), 2);
    AddTwo(cells, CellsOf(r)[..2]);
    AddTwo(cells, CellsOf(r)[2..]);
    CountBoth(cells, r.faulted, r.restored);
  }

  /** A row of a pair not seen before brings two new cells. */
  lemma {:induction false} FaultCellsFresh(clean: TrialManifest, points: seq<GridPoint>, mode: RestorationMode,
                                           control: Control, n: nat, cells: seq<Cell>)
    requires clean.condition.Clean? && RowsTell(clean, points, mode, control) && n < |points|
    requires Distinct(PairsOf(points))
    requires CellsCollected(points, RowBuilderOf(clean, mode, control), n, cells)
    ensures var r := RowOf(clean, points[n], mode, control).value; r.faulted !in cells && r.restored !in cells
  {
    var rowOf := RowBuilderOf(clean, mode, control);
    var r := RowOf(clean, points[n], mode, control).value;
    forall c | c in cells ensures c != r.faulted && c != r.restored {
      var k :| 0 <= k < n && InRow(rowOf, points[k], c);
      OtherPair(clean, points, mode, control, k, n, c);
    }
  }

  lemma {:induction false} OtherPair(clean: TrialManifest, points: seq<GridPoint>, mode: RestorationMode,
                                     control: Control, k: nat, n: nat, c: Cell)
    requires clean.condition.Clean? && RowsTell(clean, points, mode, control) && k < n < |points|
    requires Distinct(PairsOf(points)) && InRow(RowBuilderOf(clean, mode, control), points[k], c)
    ensures var r := RowOf(clean, points[n], mode, control).value; c != r.faulted && c != r.restored
  {
    var a, b := points[k].fault.instance, points[n].fault.instance;
    assert PairsOf(points)[k] != PairsOf(points)[n];
    if OperatorName(a.op) == OperatorName(b.op) { NamesDistinct(a.op, b.op); }
  }

  lemma {:induction false} RowBalances(clean: TrialManifest, points: seq<GridPoint>, mode: RestorationMode,
                                       control: Control, n: nat, cells: seq<Cell>)
    requires clean.condition.Clean? && RowsTell(clean, points, mode, control) && n < |points|
    requires Distinct(PairsOf(points)) && Balanced(cells, n)
    requires CellsCollected(points, RowBuilderOf(clean, mode, control), n, cells)
    ensures Balanced(AddAll(cells, CellsOf(RowOf(clean, points[n], mode, control).value)), n + 1)
  {
    var r := RowOf(clean, points[n], mode, control).value;
    if n == 0 {
      BalancedFirst(r);
    } else {
      FaultCellsFresh(clean, points, mode, control, n, cells);
      BaselinesPresent(clean, points, mode, control, n, cells);
      BalancedNext(cells, n, r);
    }
  }

  /** Each row, added to the cells of those before it, keeps the balance. */
  ghost predicate KeepsBalance(points: seq<GridPoint>, rowOf: RowBuilder) {
    forall n: nat, cells: seq<Cell> ::
      n < |points| && CellsCollected(points, rowOf, n, cells) && Balanced(cells, n) ==>
        rowOf(points[n]).Returned? && Balanced(AddAll(cells, CellsOf(rowOf(points[n]).value)), n + 1)
  }

  lemma {:induction false} CollectBalances(points: seq<GridPoint>, rowOf: RowBuilder, n: nat,
                                           mode: RestorationMode)
    requires n <= |points| && RowsExist(rowOf, points) && KeepsBalance(points, rowOf)
    ensures Collect(points, rowOf, n, mode).Returned?
    ensures Balanced(Collect(points, rowOf, n, mode).value.cells, n)
  {
    if n > 0 {
      CollectBalances(points, rowOf, n - 1, mode);
      BalancesNext(points, rowOf, n - 1, mode);
    }
  }

  lemma {:induction false} BalancesNext(points: seq<GridPoint>, rowOf: RowBuilder, n: nat, mode: RestorationMode)
    requires n < |points| && RowsExist(rowOf, points) && KeepsBalance(points, rowOf)
    requires var b := Collect(points, rowOf, n, mode); b.Returned? && Balanced(b.value.cells, n)
    ensures var b := Collect(points, rowOf, n + 1, mode); b.Returned? && Balanced(b.value.cells, n + 1)
  {
    var cells := Collect(points, rowOf, n, mode).value.cells;
    assert CellsCollected(points, rowOf, n, cells) by { CollectCollects(points, rowOf, n, mode); }
    assert points[n] in points;
    CollectNext(points, rowOf, n, mode);
  }

  lemma {:induction false} RowsKeepBalance(clean: TrialManifest, points: seq<GridPoint>, mode: RestorationMode,
                                           control: Control)
    requires clean.condition.Clean? && RowsTell(clean, points, mode, control) && Distinct(PairsOf(points))
    ensures KeepsBalance(points, RowBuilderOf(clean, mode, control))
  {
    var rowOf := RowBuilderOf(clean, mode, control);
    forall n: nat, cells: seq<Cell>
      | n < |points| && CellsCollected(points, rowOf, n, cells) && Balanced(cells, n)
      ensures rowOf(points[n]).Returned? && Balanced(AddAll(cells, CellsOf(rowOf(points[n]).value)), n + 1)
    {
      RowBalances(clean, points, mode, control, n, cells);
    }
  }

  lemma {:induction false} CollectNext(points: seq<GridPoint>, rowOf: RowBuilder, n: nat, mode: RestorationMode)
    requires n < |points| && Collect(points, rowOf, n, mode).Returned? && rowOf(points[n]).Returned?
    ensures var b := Collect(points, rowOf, n + 1, mode);
            && b.Returned?
            && b.value.cells == AddAll(Collect(points, rowOf, n, mode).value.cells, CellsOf(rowOf(points[n]).value))
  {
  }

  lemma {:induction false} BaselinesPresent(clean: TrialManifest, points: seq<GridPoint>, mode: RestorationMode,
                                            control: Control, n: nat, cells: seq<Cell>)
    requires RowsTell(clean, points, mode, control) && 1 <= n < |points|
    requires CellsCollected(points, RowBuilderOf(clean, mode, control), n, cells)
    ensures var r := RowOf(clean, points[n], mode, control).value; r.clean in cells && r.noTouch in cells
  {
    var rowOf := RowBuilderOf(clean, mode, control);
    var r := RowOf(clean, points[0], mode, control).value;
    assert InRow(rowOf, points[0], CellsOf(r)[0]) && InRow(rowOf, points[0], CellsOf(r)[1]);
  }

  lemma {:induction false} OrderedCounts(d: Digests, clean: TrialManifest, ordered: seq<GridPoint>,
                                         mode: RestorationMode, control: Control)
    requires Collisionless(d) && clean.condition.Clean? && PointsOk(ordered) && GridComplete(ordered)
    requires RowsTell(clean, ordered, mode, control) && RowsExist(RowBuilderOf(clean, mode, control), ordered)
    ensures var b := Collect(ordered, RowBuilderOf(clean, mode, control), |ordered|, mode);
            && b.Returned? && Balanced(Sort(CellOrder(d), b.value.cells), 70)
  {
    CompleteGridIsExact(ordered);
    RowsKeepBalance(clean, ordered, mode, control);
    CollectBalances(ordered, RowBuilderOf(clean, mode, control), |ordered|, mode);
    var cells := Collect(ordered, RowBuilderOf(clean, mode, control), |ordered|, mode).value.cells;
    CellOrderTotal(d);
    SortSorts(CellOrder(d), cells);
    CountSort(CellOrder(d), cells, Condition.Clean);
    CountSort(CellOrder(d), cells, NoTouch);
    CountSort(CellOrder(d), cells, Faulted);
    CountSort(CellOrder(d), cells, Restored);
  }

  /** A built matrix is that of its ordered points. */
  lemma {:induction false} BuildIsOrdered(d: Digests, id: string, kind: GridKind, clean: TrialManifest,
                                          points: seq<GridPoint>, mode: RestorationMode, control: Control)
    requires Build(d, id, kind, clean, points, mode, control).Returned?
    ensures var (m, ordered) := (Build(d, id, kind, clean, points, mode, control).value, Sort(PointOrder(d), points));
            var b := Collect(ordered, RowBuilderOf(clean, mode, control), |ordered|, mode);
            && b.Returned? && m.cells == Sort(CellOrder(d), b.value.cells) && m.comparisons == b.value.comparisons
            && InventoryOk(m) && m.kind == kind
  {
  }

  lemma {:induction false} OrderedPrimary(d: Digests, id: string, clean: TrialManifest, points: seq<GridPoint>,
                                          mode: RestorationMode, control: Control)
    requires Collisionless(d) && TrialOk(clean) && PointsOk(points)
    requires Buildable(id, clean, points) && ControlOk(control) && AllPair(points) && GridComplete(points)
    ensures var ordered := Sort(PointOrder(d), points);
            var b := Collect(ordered, RowBuilderOf(clean, mode, control), |ordered|, mode);
            b.Returned? && Balanced(Sort(CellOrder(d), b.value.cells), 70)
  {
    var ordered := Sort(PointOrder(d), points);
    PointOrderTotal(d);
    SortSorts(PointOrder(d), points);
    PointsMove(points, ordered);
    AllRowsTell(clean, ordered, mode, control);
    OrderedCounts(d, clean, ordered, mode, control);
  }

  /** A primary matrix that is built has exactly 1 clean, 1 no-touch, 70 faulted and 70 restored
      cells, pairwise distinct, under 70 comparison rows. */
  lemma {:induction false} PrimaryHas142Cells(d: Digests, id: string, clean: TrialManifest, points: seq<GridPoint>,
                                              mode: RestorationMode, control: Control)
    requires Collisionless(d) && TrialOk(clean) && PointsOk(points)
    requires Build(d, id, Primary, clean, points, mode, control).Returned?
    ensures var m := Build(d, id, Primary, clean, points, mode, control).value;
            && |m.cells| == 142 && Distinct(m.cells) && |m.comparisons| == 70
            && Count(m.cells, Condition.Clean) == 1 && Count(m.cells, NoTouch) == 1
            && Count(m.cells, Faulted) == 70 && Count(m.cells, Restored) == 70
  {
    BuildExact(d, id, Primary, clean, points, mode, control);
    OrderedPrimary(d, id, clean, points, mode, control);
    BuildIsOrdered(d, id, Primary, clean, points, mode, control);
  }

  /** A set of seventy blind faults that covers the registered grid makes a complete grid of
      points: the primary builder refuses nothing that the shared builder would accept. */
  lemma {:induction false} PrimaryIsComplete(faults: seq<FaultManifest>, index: int)
    requires PrimaryGrid(faults) && forall m <- faults :: ManifestOk(m)
    ensures GridComplete(PrimaryPoints(faults, index)) && forall p <- PrimaryPoints(faults, index) :: !Blank(p.focus)
  {
    var points := PrimaryPoints(faults, index);
    forall op: OperatorId, level | 1 <= level <= 5 ensures PointAt(points, op, level) {
      Registered(op);
      assert (op, level) in PrimaryPairs();
      var m :| m in faults && (m.instance.op, m.instance.level) == (op, level);
      var k :| 0 <= k < |faults| && faults[k] == m;
      assert points[k] in points;
    }
    forall p <- points ensures !Blank(p.focus) {
      assert ':' in p.focus;
    }
  }

  lemma {:induction false} Registered(op: OperatorId)
    ensures op in OPERATORS
  {
    var all := [A1, A2, C1, C2, F1, F2, F3, F4, F5, F6, F7, T1, T2, T3];
    assert all[0] == A1 && all[1] == A2 && all[2] == C1 && all[3] == C2 && all[4] == F1 && all[5] == F2;
    assert all[6] == F3 && all[7] == F4 && all[8] == F5 && all[9] == F6 && all[10] == F7;
    assert all[11] == T1 && all[12] == T2 && all[13] == T3;
  }

  lemma {:induction false} DistinctPairsDistinctPoints(points: seq<GridPoint>)
    requires Distinct(PairsOf(points))
    ensures Distinct(points)
  {
    forall i, j | 0 <= i < j < |points| ensures points[i] != points[j] {
      assert PairsOf(points)[i] != PairsOf(points)[j];
    }
  }

  /** The primary builder, from its faults: it accepts exactly a complete blind 14-by-5 grid
      whose windows contain the restoration index, around a clean trial with a well-formed
      control, where every T2 freeze fits; and then the matrix has its 142 cells. */
  lemma {:induction false} PrimaryExact(d: Digests, id: string, clean: TrialManifest, faults: seq<FaultManifest>,
                                        index: int, mode: RestorationMode, control: Control)
    requires Collisionless(d) && TrialOk(clean) && forall m <- faults :: ManifestOk(m)
    ensures var r, points := BuildPrimary(d, id, clean, faults, index, mode, control), PrimaryPoints(faults, index);
            && (r.Returned? <==>
                  && PrimaryGrid(faults) && !Blank(id) && clean.condition.Clean? && ControlOk(control)
                  && PointsOk(points) && AllPair(points))
            && (r.Returned? ==> |r.value.cells| == 142)
  {
    var points := PrimaryPoints(faults, index);
    if PrimaryGrid(faults) && forall p <- points :: GridPointOk(p) {
      PrimaryPointsFit(faults, index);
      BuildExact(d, id, Primary, clean, points, mode, control);
      PrimaryIsBuild(d, id, clean, faults, index, mode, control);
      if Build(d, id, Primary, clean, points, mode, control).Returned? {
        PrimaryHas142Cells(d, id, clean, points, mode, control);
      }
    }
  }

  lemma {:induction false} PrimaryIsBuild(d: Digests, id: string, clean: TrialManifest, faults: seq<FaultManifest>,
                                          index: int, mode: RestorationMode, control: Control)
    requires PrimaryGrid(faults) && forall p <- PrimaryPoints(faults, index) :: GridPointOk(p)
    ensures BuildPrimary(d, id, clean, faults, index, mode, control)
            == Build(d, id, Primary, clean, PrimaryPoints(faults, index), mode, control)
  {
  }

  lemma {:induction false} PrimaryPointsFit(faults: seq<FaultManifest>, index: int)
    requires PrimaryGrid(faults) && (forall m <- faults :: ManifestOk(m))
    requires forall p <- PrimaryPoints(faults, index) :: GridPointOk(p)
    ensures var points := PrimaryPoints(faults, index);
            && points != [] && PointsOk(points) && GridComplete(points) && Distinct(points)
            && forall p <- points :: p.fault.observability.Blind?
  {
    var points := PrimaryPoints(faults, index);
    PrimaryIsComplete(faults, index);
    forall p <- points ensures ManifestOk(p.fault) && p.fault.observability.Blind? {
      var k :| 0 <= k < |faults| && points[k] == p;
      assert faults[k] in faults;
    }
    CompleteGridIsExact(points);
    DistinctPairsDistinctPoints(points);
  }
}
