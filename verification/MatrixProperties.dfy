/** The matrix builder: order-independent, complete, and exact about what it accepts. */
module MatrixProperties {
  import opened Basics
  import opened OperatorParameters
  import opened Manifests
  import opened Trials
  import opened Sorting
  import opened Matrix

  // ------------------------------------------------------------------ the two orders

  lemma {:induction false} PointsTransitive(d: Digests, a: GridPoint, b: GridPoint, c: GridPoint)
    requires PointLess(d, a, b) && PointLess(d, b, c)
    ensures PointLess(d, a, c)
  {
    var x, y, z := a.fault.instance, b.fault.instance, c.fault.instance;
    if x.op != y.op && y.op != z.op {
      TextTransitive(OperatorName(x.op), OperatorName(y.op), OperatorName(z.op));
      if x.op == z.op { TextTotal(OperatorName(x.op), OperatorName(x.op)); }
    } else if x.op == y.op == z.op && x.level == y.level == z.level {
      if a.focus != b.focus && b.focus != c.focus {
        TextTransitive(a.focus, b.focus, c.focus);
        TextTotal(a.focus, c.focus);
      }
    }
  }

  lemma {:induction false} PointsTotal(d: Digests, a: GridPoint, b: GridPoint)
    requires Collisionless(d)
    ensures !PointLess(d, a, a) && (a == b || PointLess(d, a, b) || PointLess(d, b, a))
  {
    var x, y := a.fault.instance, b.fault.instance;
    if x.op != y.op {
      if OperatorName(x.op) == OperatorName(y.op) { NamesDistinct(x.op, y.op); }
      TextTotal(OperatorName(x.op), OperatorName(y.op));
    } else {
      TextTotal(a.focus, b.focus);
    }
  }

  /** Operator, severity, focus, restoration index and manifest digest order all points. */
  lemma {:induction false} PointOrderTotal(d: Digests)
    requires Collisionless(d)
    ensures StrictTotal(PointOrder(d))
  {
    forall a, b, c | PointOrder(d)(a, b) && PointOrder(d)(b, c) ensures PointOrder(d)(a, c) {
      PointsTransitive(d, a, b, c);
    }
    forall a, b ensures !PointOrder(d)(a, a) && (a == b || PointOrder(d)(a, b) || PointOrder(d)(b, a)) {
      PointsTotal(d, a, b);
    }
  }

  lemma {:induction false} CellsTransitive(d: Digests, a: Cell, b: Cell, c: Cell)
    requires CellLess(d, a, b) && CellLess(d, b, c)
    ensures CellLess(d, a, c)
  {
    if a.trial.condition == b.trial.condition == c.trial.condition {
      if CellOperator(a) != CellOperator(b) && CellOperator(b) != CellOperator(c) {
        TextTransitive(CellOperator(a), CellOperator(b), CellOperator(c));
        TextTotal(CellOperator(a), CellOperator(c));
      }
    }
  }

  lemma {:induction false} CellsTotal(d: Digests, a: Cell, b: Cell)
    requires Collisionless(d)
    ensures !CellLess(d, a, a) && (a == b || CellLess(d, a, b) || CellLess(d, b, a))
  {
    TextTotal(CellOperator(a), CellOperator(b));
  }

  lemma {:induction false} CellOrderTotal(d: Digests)
    requires Collisionless(d)
    ensures StrictTotal(CellOrder(d))
  {
    forall a, b, c | CellOrder(d)(a, b) && CellOrder(d)(b, c) ensures CellOrder(d)(a, c) {
      CellsTransitive(d, a, b, c);
    }
    forall a, b ensures !CellOrder(d)(a, a) && (a == b || CellOrder(d)(a, b) || CellOrder(d)(b, a)) {
      CellsTotal(d, a, b);
    }
  }

  // ------------------------------------------------------------------ order independence

  lemma {:induction false} CountsBound<T>(s: seq<T>, x: T)
    ensures multiset(s)[x] >= 2 ==> exists i, j :: 0 <= i < j < |s| && s[i] == s[j] == x
  {
    if |s| > 0 {
      var front := s[..|s| - 1];
      assert s == front + [s[|s| - 1]];
      CountsBound(front, x);
      if multiset(s)[x] >= 2 && multiset(front)[x] < 2 {
        assert x in multiset(front) && x == s[|s| - 1];
        var i :| 0 <= i < |front| && front[i] == x;
        assert s[i] == s[|s| - 1] == x;
      }
    }
  }

  lemma {:induction false} TwiceCounts<T>(s: seq<T>, i: nat, j: nat)
    requires i < j < |s| && s[i] == s[j]
    ensures multiset(s)[s[i]] >= 2
  {
    assert s == s[..j] + s[j..];
    assert s[..j][i] == s[i] && s[j..][0] == s[i];
    assert multiset(s)[s[i]] == multiset(s[..j])[s[i]] + multiset(s[j..])[s[i]];
  }

  /** Distinctness is a property of the elements with their multiplicities. */
  lemma {:induction false} DistinctMeans<T>(s: seq<T>)
    ensures Distinct(s) <==> forall x :: multiset(s)[x] <= 1
  {
    if Distinct(s) {
      forall x ensures multiset(s)[x] <= 1 { CountsBound(s, x); }
    }
    if forall x :: multiset(s)[x] <= 1 {
      forall i, j | 0 <= i < j < |s| ensures s[i] != s[j] {
        if s[i] == s[j] { TwiceCounts(s, i, j); }
      }
    }
  }

  lemma {:induction false} DistinctMoves<T>(a: seq<T>, b: seq<T>)
    requires multiset(a) == multiset(b)
    ensures Distinct(a) <==> Distinct(b)
    ensures forall x :: x in a <==> x in b
  {
    DistinctMeans(a);
    DistinctMeans(b);
    forall x ensures x in a <==> x in b {
      assert x in a <==> x in multiset(a);
      assert x in b <==> x in multiset(b);
    }
  }

  /** Permuting the grid points changes nothing: the same manifest, cell by cell and row by
      row, or the same refusal. */
  lemma {:induction false} BuildForgetsOrder(d: Digests, id: string, kind: GridKind, clean: TrialManifest,
                                             p: seq<GridPoint>, q: seq<GridPoint>, mode: RestorationMode,
                                             control: Control)
    requires Collisionless(d) && multiset(p) == multiset(q)
    ensures Build(d, id, kind, clean, p, mode, control) == Build(d, id, kind, clean, q, mode, control)
  {
    PointOrderTotal(d);
    SortForgetsOrder(PointOrder(d), p, q);
    DistinctMoves(p, q);
    assert |multiset(p)| == |multiset(q)|;
    assert Buildable(id, clean, p) <==> Buildable(id, clean, q);
  }

  // ------------------------------------------------------------------ one row

  /** A T2 freeze fits in the restored window. */
  predicate Pairs(p: GridPoint)
    requires 1 <= p.fault.instance.level <= 5
  {
    p.fault.instance.op.T2? ==> Steps(T2, p.fault.instance.level) <= p.index - p.fault.instance.start
  }

  /** What a row consists of, and what its comparison may be checked against. */
  ghost predicate RowTells(clean: TrialManifest, p: GridPoint, mode: RestorationMode, control: Control, r: Row) {
    && r.clean == Cell(clean, None) && r.noTouch == Cell(NoTouchTrial(clean, control), None)
    && r.faulted == Cell(FaultedTrial(clean, p.fault), Some(p.fault))
    && r.restored.fault.Some?
    && r.restored.trial == RestoredTrial(clean, r.restored.fault.value, p.index, mode)
    && r.restored.fault.value.observability == p.fault.observability
    && CellOperator(r.restored) == OperatorName(p.fault.instance.op)
    && CellLevel(r.restored) == p.fault.instance.level
    && InstancesOk(ComparisonOf(p, mode, r), r.faulted, r.restored)
  }

  /** A point is accepted exactly when its restored twin pairs and the control is well-formed. */
  lemma {:induction false} RowExact(clean: TrialManifest, p: GridPoint, mode: RestorationMode, control: Control)
    requires TrialOk(clean) && clean.condition.Clean? && GridPointOk(p) && ManifestOk(p.fault)
    ensures RowOf(clean, p, mode, control).Returned? <==> ControlOk(control) && Pairs(p)
    ensures RowOf(clean, p, mode, control).Returned? ==>
              RowTells(clean, p, mode, control, RowOf(clean, p, mode, control).value)
  {
    PairingExact(clean, p.fault, p.index, mode, control);
    RestoredTwinExists(p.fault, p.index);
    RowCells(clean, p, mode, control);
  }

  /** The cells of an accepted grid always construct. */
  lemma {:induction false} RowCells(clean: TrialManifest, p: GridPoint, mode: RestorationMode, control: Control)
    requires clean.condition.Clean? && GridPointOk(p) && ManifestOk(p.fault)
    requires Reparameterized(p.fault, None, Some(p.index)).Returned?
    requires Reparameterized(p.fault, None, Some(p.index)).value.instance == p.fault.instance.(stop := p.index)
    requires Reparameterized(p.fault, None, Some(p.index)).value.observability == p.fault.observability
    ensures var twin := Reparameterized(p.fault, None, Some(p.index)).value;
            var grid := BuildPairedTrialGrid(clean, p.fault, twin, p.index, mode, control);
            && (RowOf(clean, p, mode, control).Returned? <==> grid.Returned?)
            && (grid.Returned? ==> RowTells(clean, p, mode, control, RowOf(clean, p, mode, control).value))
  {
  }

  // ------------------------------------------------------------------ all rows

  /** Rows exist for all points. */
  ghost predicate RowsExist(rowOf: RowBuilder, points: seq<GridPoint>) {
    forall p <- points :: rowOf(p).Returned?
  }

  lemma {:induction false} CollectExact(points: seq<GridPoint>, rowOf: RowBuilder, n: nat, mode: RestorationMode)
    requires n <= |points|
    ensures Collect(points, rowOf, n, mode).Returned? <==> forall k :: 0 <= k < n ==> rowOf(points[k]).Returned?
  {
    if n > 0 { CollectExact(points, rowOf, n - 1, mode); }
  }

  predicate InRow(rowOf: RowBuilder, p: GridPoint, c: Cell) {
    rowOf(p).Returned? && c in CellsOf(rowOf(p).value)
  }

  /** Exactly the cells of the first n rows, each once. */
  ghost predicate CellsCollected(points: seq<GridPoint>, rowOf: RowBuilder, n: nat, cells: seq<Cell>)
    requires n <= |points|
  {
    && Distinct(cells)
    && (forall c :: c in cells ==> exists k :: 0 <= k < n && InRow(rowOf, points[k], c))
    && (forall k, c :: 0 <= k < n && InRow(rowOf, points[k], c) ==> c in cells)
  }

  ghost predicate RowsCollected(points: seq<GridPoint>, rowOf: RowBuilder, n: nat, mode: RestorationMode,
                                comparisons: seq<Comparison>)
    requires n <= |points| && RowsExist(rowOf, points)
  {
    && |comparisons| == n
    && forall k :: 0 <= k < n ==> comparisons[k] == ComparisonOf(points[k], mode, rowOf(points[k]).value)
  }

  lemma {:induction false} AddAllKeeps(cells: seq<Cell>, more: seq<Cell>)
    requires Distinct(cells)
    ensures Distinct(AddAll(cells, more))
    ensures forall c :: c in AddAll(cells, more) <==> c in cells || c in more
  {
    if more != [] {
      AddAllKeeps(cells, more[..|more| - 1]);
      assert more == more[..|more| - 1] + [more[|more| - 1]];
    }
  }

  lemma {:induction false} CellsNext(points: seq<GridPoint>, rowOf: RowBuilder, n: nat, cells: seq<Cell>)
    requires n < |points| && rowOf(points[n]).Returned? && CellsCollected(points, rowOf, n, cells)
    ensures CellsCollected(points, rowOf, n + 1, AddAll(cells, CellsOf(rowOf(points[n]).value)))
  {
    var more := CellsOf(rowOf(points[n]).value);
    AddAllKeeps(cells, more);
    forall c | c in AddAll(cells, more) ensures exists k :: 0 <= k < n + 1 && InRow(rowOf, points[k], c) {
      if c in more {
        assert InRow(rowOf, points[n], c);
      } else {
        var k :| 0 <= k < n && InRow(rowOf, points[k], c);
      }
    }
  }

  lemma {:induction false} CollectCollects(points: seq<GridPoint>, rowOf: RowBuilder, n: nat,
                                           mode: RestorationMode)
    requires n <= |points| && RowsExist(rowOf, points)
    ensures var b := Collect(points, rowOf, n, mode);
            && b.Returned? && CellsCollected(points, rowOf, n, b.value.cells)
            && RowsCollected(points, rowOf, n, mode, b.value.comparisons)
  {
    if n > 0 {
      CollectCollects(points, rowOf, n - 1, mode);
      var before := Collect(points, rowOf, n - 1, mode).value;
      assert points[n - 1] in points;
      CellsNext(points, rowOf, n - 1, before.cells);
      RowsNext(points, rowOf, n - 1, mode, before.comparisons);
    }
  }

  lemma {:induction false} RowsNext(points: seq<GridPoint>, rowOf: RowBuilder, n: nat, mode: RestorationMode,
                                    comparisons: seq<Comparison>)
    requires n < |points| && RowsExist(rowOf, points) && RowsCollected(points, rowOf, n, mode, comparisons)
    requires points[n] in points
    ensures RowsCollected(points, rowOf, n + 1, mode,
                          comparisons + [ComparisonOf(points[n], mode, rowOf(points[n]).value)])
  {
  }

  // ------------------------------------------------------------------ the manifest's checks

  lemma {:induction false} FindFinds(cells: seq<Cell>, c: Cell)
    requires c in cells
    ensures Find(cells, Sha(c)) == Some(c)
  {
    if cells[0] != c { FindFinds(cells[1..], c); }
  }

  lemma {:induction false} CountNone(cells: seq<Cell>, condition: Condition)
    requires forall c <- cells :: c.trial.condition != condition
    ensures Count(cells, condition) == 0
  {
    if cells != [] { CountNone(cells[1..], condition); }
  }

  lemma {:induction false} CountOne(cells: seq<Cell>, condition: Condition, x: Cell)
    requires Distinct(cells) && x in cells && x.trial.condition == condition
    requires forall c <- cells :: c.trial.condition == condition ==> c == x
    ensures Count(cells, condition) == 1
  {
    if cells[0] == x {
      forall c <- cells[1..] ensures c.trial.condition != condition {
        var k :| 0 <= k < |cells[1..]| && cells[1..][k] == c;
        assert cells[k + 1] == c && cells[0] != cells[k + 1];
      }
      CountNone(cells[1..], condition);
    } else {
      forall i, j | 0 <= i < j < |cells[1..]| ensures cells[1..][i] != cells[1..][j] {
        assert cells[i + 1] != cells[j + 1];
      }
      CountOne(cells[1..], condition, x);
    }
  }

  /** Every row of well-formed points has its four kinds of cells. */
  ghost predicate RowsTell(clean: TrialManifest, points: seq<GridPoint>, mode: RestorationMode, control: Control) {
    forall k :: 0 <= k < |points| ==>
      && RowOf(clean, points[k], mode, control).Returned?
      && RowTells(clean, points[k], mode, control, RowOf(clean, points[k], mode, control).value)
  }

  ghost predicate Collects(clean: TrialManifest, points: seq<GridPoint>, mode: RestorationMode, control: Control,
                           cells: seq<Cell>)
  {
    CellsCollected(points, RowBuilderOf(clean, mode, control), |points|, cells)
  }

  /** The row a collected cell comes from. */
  lemma {:induction false} CellRow(clean: TrialManifest, points: seq<GridPoint>, mode: RestorationMode,
                                   control: Control, cells: seq<Cell>, c: Cell) returns (k: nat)
    requires Collects(clean, points, mode, control, cells) && c in cells
    ensures k < |points|
    ensures var r := RowOf(clean, points[k], mode, control); r.Returned? && c in CellsOf(r.value)
  {
    var rowOf := RowBuilderOf(clean, mode, control);
    k :| 0 <= k < |points| && InRow(rowOf, points[k], c);
  }

  lemma {:induction false} FourKinds(r: Row, c: Cell)
    requires c in CellsOf(r)
    ensures c == r.clean || c == r.noTouch || c == r.faulted || c == r.restored
  {
  }

  /** What a collected cell is. */
  lemma {:induction false} CellKinds(clean: TrialManifest, points: seq<GridPoint>, mode: RestorationMode,
                                     control: Control, cells: seq<Cell>, c: Cell) returns (k: nat)
    requires RowsTell(clean, points, mode, control) && Collects(clean, points, mode, control, cells) && c in cells
    ensures k < |points|
    ensures var r := RowOf(clean, points[k], mode, control).value;
            c == r.clean || c == r.noTouch || c == r.faulted || c == r.restored
  {
    k := CellRow(clean, points, mode, control, cells, c);
    FourKinds(RowOf(clean, points[k], mode, control).value, c);
  }

  lemma {:induction false} RowCellsPresent(clean: TrialManifest, points: seq<GridPoint>, mode: RestorationMode,
                                           control: Control, cells: seq<Cell>, k: nat)
    requires RowsTell(clean, points, mode, control) && Collects(clean, points, mode, control, cells)
    requires k < |points|
    ensures var r := RowOf(clean, points[k], mode, control).value;
            r.clean in cells && r.noTouch in cells && r.faulted in cells && r.restored in cells
  {
    var rowOf := RowBuilderOf(clean, mode, control);
    var r := RowOf(clean, points[k], mode, control).value;
    assert InRow(rowOf, points[k], CellsOf(r)[0]) && InRow(rowOf, points[k], CellsOf(r)[1]);
    assert InRow(rowOf, points[k], CellsOf(r)[2]) && InRow(rowOf, points[k], CellsOf(r)[3]);
  }

  /** One clean and one no-touch cell, however many points share them. */
  lemma {:induction false} BaselinesShared(clean: TrialManifest, points: seq<GridPoint>, mode: RestorationMode,
                                           control: Control, cells: seq<Cell>)
    requires clean.condition.Clean? && points != []
    requires RowsTell(clean, points, mode, control) && Collects(clean, points, mode, control, cells)
    ensures Count(cells, Condition.Clean) == 1 && Count(cells, NoTouch) == 1
  {
    RowCellsPresent(clean, points, mode, control, cells, 0);
    var r := RowOf(clean, points[0], mode, control).value;
    forall c <- cells
      ensures c.trial.condition.Clean? ==> c == r.clean
      ensures c.trial.condition.NoTouch? ==> c == r.noTouch
    {
      var k := CellKinds(clean, points, mode, control, cells, c);
    }
    CountOne(cells, Condition.Clean, r.clean);
    CountOne(cells, NoTouch, r.noTouch);
  }

  lemma {:induction false} CellsFit(clean: TrialManifest, points: seq<GridPoint>, mode: RestorationMode,
                                    control: Control, cells: seq<Cell>, c: Cell)
    requires RowsTell(clean, points, mode, control) && Collects(clean, points, mode, control, cells) && c in cells
    requires forall p <- points :: p.fault.observability.Blind?
    ensures PairKey(c.trial) == PairKey(clean) && (c.fault.Some? ==> c.fault.value.observability.Blind?)
  {
    var k := CellKinds(clean, points, mode, control, cells, c);
    assert points[k] in points;
  }

  /** Each comparison's four addresses resolve to cells of the right condition, and its fault
      cells to one operator instance. */
  lemma {:induction false} RowResolves(clean: TrialManifest, points: seq<GridPoint>, mode: RestorationMode,
                                       control: Control, m: MatrixManifest, k: nat)
    requires clean.condition.Clean? && RowsTell(clean, points, mode, control) && k < |points|
    requires Collects(clean, points, mode, control, m.cells)
    ensures RowOk(m, ComparisonOf(points[k], mode, RowOf(clean, points[k], mode, control).value))
  {
    RowCellsPresent(clean, points, mode, control, m.cells, k);
    var r := RowOf(clean, points[k], mode, control).value;
    FindFinds(m.cells, r.faulted);
    FindFinds(m.cells, r.restored);
  }

  lemma {:induction false} CellsReferenced(clean: TrialManifest, points: seq<GridPoint>, mode: RestorationMode,
                                           control: Control, m: MatrixManifest, c: Cell)
    requires RowsTell(clean, points, mode, control) && Collects(clean, points, mode, control, m.cells)
    requires c in m.cells && |m.comparisons| == |points|
    requires forall k :: 0 <= k < |points| ==>
               m.comparisons[k] == ComparisonOf(points[k], mode, RowOf(clean, points[k], mode, control).value)
    ensures Referenced(m.comparisons, Sha(c))
  {
    var k := CellKinds(clean, points, mode, control, m.cells, c);
    assert m.comparisons[k] in m.comparisons;
  }

  /** Every registered operator and severity has a point, and there are no others. */
  ghost predicate GridComplete(points: seq<GridPoint>) {
    && |points| == 70
    && forall op: OperatorId, level | 1 <= level <= 5 :: PointAt(points, op, level)
  }

  predicate PointAt(points: seq<GridPoint>, op: OperatorId, level: int) {
    exists p <- points :: p.fault.instance.op == op && p.fault.instance.level == level
  }

  lemma {:induction false} GridCovered(points: seq<GridPoint>, mode: RestorationMode, rowOf: RowBuilder,
                                       comparisons: seq<Comparison>, op: OperatorId, level: int)
    requires RowsExist(rowOf, points) && RowsCollected(points, rowOf, |points|, mode, comparisons)
    ensures Covered(comparisons, op, level) <==> PointAt(points, op, level)
  {
    if PointAt(points, op, level) {
      var p :| p in points && p.fault.instance.op == op && p.fault.instance.level == level;
      var k :| 0 <= k < |points| && points[k] == p;
      assert comparisons[k] in comparisons;
    }
    if Covered(comparisons, op, level) {
      var row :| row in comparisons && row.op == op && row.level == level;
      var k :| 0 <= k < |comparisons| && comparisons[k] == row;
      assert points[k] in points;
    }
  }

  lemma {:induction false} CellInventoryHolds(clean: TrialManifest, points: seq<GridPoint>, mode: RestorationMode,
                                              control: Control, m: MatrixManifest)
    requires clean.condition.Clean? && points != []
    requires forall p <- points :: p.fault.observability.Blind?
    requires RowsTell(clean, points, mode, control) && Collects(clean, points, mode, control, m.cells)
    requires m.pairKey == PairKey(clean)
    ensures CellInventoryOk(m)
  {
    BaselinesShared(clean, points, mode, control, m.cells);
    AllCellsFit(clean, points, mode, control, m.cells);
    assert m.cells != [] by { RowCellsPresent(clean, points, mode, control, m.cells, 0); }
  }

  lemma {:induction false} AllCellsFit(clean: TrialManifest, points: seq<GridPoint>, mode: RestorationMode,
                                       control: Control, cells: seq<Cell>)
    requires RowsTell(clean, points, mode, control) && Collects(clean, points, mode, control, cells)
    requires forall p <- points :: p.fault.observability.Blind?
    ensures forall c <- cells :: PairKey(c.trial) == PairKey(clean)
    ensures forall c <- cells :: c.fault.Some? ==> c.fault.value.observability.Blind?
  {
    forall c <- cells
      ensures PairKey(c.trial) == PairKey(clean) && (c.fault.Some? ==> c.fault.value.observability.Blind?)
    {
      CellsFit(clean, points, mode, control, cells, c);
    }
  }

  lemma {:induction false} PointKeysDistinct(points: seq<GridPoint>, mode: RestorationMode, i: nat, j: nat)
    requires Distinct(points) && i < j < |points|
    ensures KeyOf(points[i], mode) != KeyOf(points[j], mode)
  {
    assert points[i] != points[j];
  }

  lemma {:induction false} RowInventoryHolds(clean: TrialManifest, points: seq<GridPoint>, mode: RestorationMode,
                                             control: Control, m: MatrixManifest)
    requires clean.condition.Clean? && points != [] && Distinct(points)
    requires RowsTell(clean, points, mode, control) && RowsExist(RowBuilderOf(clean, mode, control), points)
    requires Collects(clean, points, mode, control, m.cells)
    requires RowsCollected(points, RowBuilderOf(clean, mode, control), |points|, mode, m.comparisons)
    ensures RowInventoryOk(m)
  {
    AllReferenced(clean, points, mode, control, m);
    AllResolve(clean, points, mode, control, m);
    AllKeysDistinct(points, mode, m.comparisons, RowBuilderOf(clean, mode, control));
  }

  lemma {:induction false} AllReferenced(clean: TrialManifest, points: seq<GridPoint>, mode: RestorationMode,
                                         control: Control, m: MatrixManifest)
    requires RowsTell(clean, points, mode, control) && RowsExist(RowBuilderOf(clean, mode, control), points)
    requires Collects(clean, points, mode, control, m.cells)
    requires RowsCollected(points, RowBuilderOf(clean, mode, control), |points|, mode, m.comparisons)
    ensures forall c <- m.cells :: Referenced(m.comparisons, Sha(c))
  {
    forall c <- m.cells ensures Referenced(m.comparisons, Sha(c)) {
      CellsReferenced(clean, points, mode, control, m, c);
    }
  }

  lemma {:induction false} AllResolve(clean: TrialManifest, points: seq<GridPoint>, mode: RestorationMode,
                                      control: Control, m: MatrixManifest)
    requires clean.condition.Clean?
    requires RowsTell(clean, points, mode, control) && RowsExist(RowBuilderOf(clean, mode, control), points)
    requires Collects(clean, points, mode, control, m.cells)
    requires RowsCollected(points, RowBuilderOf(clean, mode, control), |points|, mode, m.comparisons)
    ensures forall row <- m.comparisons :: RowOk(m, row)
  {
    forall row <- m.comparisons ensures RowOk(m, row) {
      var k :| 0 <= k < |points| && m.comparisons[k] == row;
      RowResolves(clean, points, mode, control, m, k);
    }
  }

  lemma {:induction false} AllKeysDistinct(points: seq<GridPoint>, mode: RestorationMode,
                                           comparisons: seq<Comparison>, rowOf: RowBuilder)
    requires Distinct(points) && RowsExist(rowOf, points)
    requires RowsCollected(points, rowOf, |points|, mode, comparisons)
    ensures forall i, j :: 0 <= i < j < |comparisons| ==> comparisons[i].point != comparisons[j].point
  {
    forall i, j | 0 <= i < j < |points| ensures comparisons[i].point != comparisons[j].point {
      PointKeysDistinct(points, mode, i, j);
    }
  }

  lemma {:induction false} CompletenessMoves(points: seq<GridPoint>, mode: RestorationMode, rowOf: RowBuilder,
                                             comparisons: seq<Comparison>)
    requires RowsExist(rowOf, points) && RowsCollected(points, rowOf, |points|, mode, comparisons)
    ensures CompleteGrid(comparisons) <==> GridComplete(points)
  {
    forall op: OperatorId, level ensures Covered(comparisons, op, level) <==> PointAt(points, op, level) {
      GridCovered(points, mode, rowOf, comparisons, op, level);
    }
  }

  // ------------------------------------------------------------------ exact acceptance

  lemma {:induction false} PointsMove(points: seq<GridPoint>, ordered: seq<GridPoint>)
    requires multiset(points) == multiset(ordered)
    ensures GridComplete(points) <==> GridComplete(ordered)
    ensures |points| == |ordered| && (Distinct(points) <==> Distinct(ordered))
    ensures forall p :: p in points <==> p in ordered
  {
    DistinctMoves(points, ordered);
    assert |multiset(points)| == |multiset(ordered)|;
    forall op: OperatorId, level ensures PointAt(points, op, level) <==> PointAt(ordered, op, level) {
    }
  }

  /** Every point pairs. */
  ghost predicate AllPair(points: seq<GridPoint>)
    requires PointsOk(points)
  {
    forall p <- points :: Pairs(p)
  }

  lemma {:induction false} AllRowsTell(clean: TrialManifest, points: seq<GridPoint>, mode: RestorationMode,
                                       control: Control)
    requires TrialOk(clean) && clean.condition.Clean? && PointsOk(points) && ControlOk(control) && AllPair(points)
    ensures RowsTell(clean, points, mode, control) && RowsExist(RowBuilderOf(clean, mode, control), points)
  {
    forall p <- points
      ensures RowOf(clean, p, mode, control).Returned?
      ensures RowTells(clean, p, mode, control, RowOf(clean, p, mode, control).value)
    {
      RowExact(clean, p, mode, control);
    }
  }

  /** The cells of ordered, accepted points, sorted, are still exactly theirs. */
  lemma {:induction false} SortedCells(d: Digests, points: seq<GridPoint>, rowOf: RowBuilder, cells: seq<Cell>)
    requires Collisionless(d) && CellsCollected(points, rowOf, |points|, cells)
    ensures CellsCollected(points, rowOf, |points|, Sort(CellOrder(d), cells))
  {
    CellOrderTotal(d);
    SortSorts(CellOrder(d), cells);
    DistinctMoves(cells, Sort(CellOrder(d), cells));
  }

  /** The matrix of ordered, accepted points. */
  lemma {:induction false} OrderedBuild(d: Digests, id: string, kind: GridKind, clean: TrialManifest,
                                        ordered: seq<GridPoint>, mode: RestorationMode, control: Control)
    requires Collisionless(d) && TrialOk(clean) && PointsOk(ordered) && Buildable(id, clean, ordered)
    requires ControlOk(control) && AllPair(ordered)
    ensures var b := Collect(ordered, RowBuilderOf(clean, mode, control), |ordered|, mode);
            && b.Returned?
            && var cells := Sort(CellOrder(d), b.value.cells);
               var m := MatrixManifest(id, kind, PairKey(clean), cells, b.value.comparisons);
               InventoryOk(m) <==> (kind.Primary? ==> GridComplete(ordered))
  {
    var rowOf := RowBuilderOf(clean, mode, control);
    AllRowsTell(clean, ordered, mode, control);
    CollectCollects(ordered, rowOf, |ordered|, mode);
    var b := Collect(ordered, rowOf, |ordered|, mode).value;
    SortedCells(d, ordered, rowOf, b.cells);
    InventoryHolds(clean, ordered, mode, control,
                   MatrixManifest(id, kind, PairKey(clean), Sort(CellOrder(d), b.cells), b.comparisons));
  }

  lemma {:induction false} InventoryHolds(clean: TrialManifest, points: seq<GridPoint>, mode: RestorationMode,
                                          control: Control, m: MatrixManifest)
    requires Buildable(m.id, clean, points) && m.pairKey == PairKey(clean)
    requires RowsTell(clean, points, mode, control) && RowsExist(RowBuilderOf(clean, mode, control), points)
    requires Collects(clean, points, mode, control, m.cells)
    requires RowsCollected(points, RowBuilderOf(clean, mode, control), |points|, mode, m.comparisons)
    ensures InventoryOk(m) <==> (m.kind.Primary? ==> GridComplete(points))
  {
    CellInventoryHolds(clean, points, mode, control, m);
    RowInventoryHolds(clean, points, mode, control, m);
    CompletenessMoves(points, mode, RowBuilderOf(clean, mode, control), m.comparisons);
  }

  /** For well-formed points, the builder accepts exactly: a clean trial, at least one point,
      blind and pairwise distinct faults, a well-formed control, restored windows that hold
      their T2 freeze, and (for a primary matrix) a complete grid.  Nothing it assembles is
      ever refused by the manifest's constructor for any other reason. */
  lemma {:induction false} BuildExact(d: Digests, id: string, kind: GridKind, clean: TrialManifest,
                                      points: seq<GridPoint>, mode: RestorationMode, control: Control)
    requires Collisionless(d) && TrialOk(clean) && PointsOk(points)
    ensures Build(d, id, kind, clean, points, mode, control).Returned? <==>
            && Buildable(id, clean, points) && ControlOk(control) && AllPair(points)
            && (kind.Primary? ==> GridComplete(points))
  {
    var ordered := Sort(PointOrder(d), points);
    PointOrderTotal(d);
    SortSorts(PointOrder(d), points);
    PointsMove(points, ordered);
    if Buildable(id, clean, points) {
      if ControlOk(control) && AllPair(points) {
        OrderedBuild(d, id, kind, clean, ordered, mode, control);
      } else {
        RefusedRow(clean, ordered, mode, control);
      }
    }
  }

  lemma {:induction false} RefusedRow(clean: TrialManifest, points: seq<GridPoint>, mode: RestorationMode,
                                      control: Control)
    requires TrialOk(clean) && clean.condition.Clean? && PointsOk(points) && points != []
    requires !(ControlOk(control) && AllPair(points))
    ensures Collect(points, RowBuilderOf(clean, mode, control), |points|, mode).Raised?
  {
    var rowOf := RowBuilderOf(clean, mode, control);
    var bad: GridPoint := if !ControlOk(control) then points[0] else (var p :| p in points && !Pairs(p); p);
    var k :| 0 <= k < |points| && points[k] == bad;
    RowExact(clean, bad, mode, control);
    CollectExact(points, rowOf, |points|, mode);
    assert rowOf(points[k]).Raised?;
  }
}
