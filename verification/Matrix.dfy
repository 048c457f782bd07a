/** The four-condition benchmark matrix: grid points, cells, comparisons, and their builder. */
module Matrix {
  import opened Basics
  import opened OperatorParameters
  import opened Manifests
  import opened Trials
  import opened Sorting

  datatype GridKind = Primary | FocusedPhase | FocusedRestoration

  datatype GridPoint = GridPoint(focus: string, fault: FaultManifest, index: int)

  predicate Blank(s: string) {
    forall c <- s :: c in " \t\n\r"
  }

  predicate GridPointOk(p: GridPoint) {
    !Blank(p.focus) && p.fault.instance.start < p.index < p.fault.instance.stop
  }

  /** One execution; comparison rows may share it. */
  datatype Cell = Cell(trial: TrialManifest, fault: Option<FaultManifest>)

  predicate CellOk(c: Cell) {
    && (c.fault.Some? <==> c.trial.condition.Faulted? || c.trial.condition.Restored?)
    && (c.fault.Some? ==> c.trial.faultManifest == Some(Sha(c.fault.value)))
  }

  datatype PointKey = PointKey(focus: string, fault: Sha<FaultManifest>, index: int, mode: RestorationMode)

  datatype Comparison = Comparison(point: Sha<PointKey>, focus: string, op: OperatorId, level: int, index: int,
                                   clean: Sha<Cell>, faulted: Sha<Cell>, noTouch: Sha<Cell>, restored: Sha<Cell>)

  datatype MatrixManifest = MatrixManifest(id: string, kind: GridKind, pairKey: Sha<PairFields>,
                                           cells: seq<Cell>, comparisons: seq<Comparison>)

  /** The order of digests: their hexadecimal texts all have one length, so Python orders them
      as the numbers they spell.  The numbers are real, as there are uncountably many contents. */
  datatype Digests = Digests(fault: FaultManifest -> real, cell: Cell -> real)

  ghost predicate Collisionless(d: Digests) {
    && (forall a, b :: d.fault(a) == d.fault(b) ==> a == b)
    && (forall a, b :: d.cell(a) == d.cell(b) ==> a == b)
  }

  // ------------------------------------------------------------------ orders

  predicate PointLess(d: Digests, a: GridPoint, b: GridPoint) {
    var x, y := a.fault.instance, b.fault.instance;
    if x.op != y.op then TextLess(OperatorName(x.op), OperatorName(y.op))
    else if x.level != y.level then x.level < y.level
    else if a.focus != b.focus then TextLess(a.focus, b.focus)
    else if a.index != b.index then a.index < b.index
    else d.fault(a.fault) < d.fault(b.fault)
  }

  function PointOrder(d: Digests): (GridPoint, GridPoint) -> bool {
    (a, b) => PointLess(d, a, b)
  }

  function ConditionRank(c: Condition): nat {
    match c
    case Clean => 0
    case NoTouch => 1
    case Faulted => 2
    case Restored => 3
  }

  function CellOperator(c: Cell): string {
    if c.fault.None? then "" else OperatorName(c.fault.value.instance.op)
  }

  function CellLevel(c: Cell): int {
    if c.fault.None? then 0 else c.fault.value.instance.level
  }

  function CellIndex(c: Cell): int {
    if c.trial.restorationIndex.None? then 0 else c.trial.restorationIndex.value
  }

  predicate CellLess(d: Digests, a: Cell, b: Cell) {
    if a.trial.condition != b.trial.condition
    then ConditionRank(a.trial.condition) < ConditionRank(b.trial.condition)
    else if CellOperator(a) != CellOperator(b) then TextLess(CellOperator(a), CellOperator(b))
    else if CellLevel(a) != CellLevel(b) then CellLevel(a) < CellLevel(b)
    else if CellIndex(a) != CellIndex(b) then CellIndex(a) < CellIndex(b)
    else d.cell(a) < d.cell(b)
  }

  function CellOrder(d: Digests): (Cell, Cell) -> bool {
    (a, b) => CellLess(d, a, b)
  }

  // ------------------------------------------------------------------ one row

  /** The four cells of a comparison row. */
  datatype Row = Row(clean: Cell, noTouch: Cell, faulted: Cell, restored: Cell)

  function RowOf(clean: TrialManifest, p: GridPoint, mode: RestorationMode, control: Control): Reply<Row> {
    if !ParametersFit(p.fault.instance.op, p.fault.parameters) then Raised(OtherError)
    else
      var twin :- Reparameterized(p.fault, None, Some(p.index));
      var g :- BuildPairedTrialGrid(clean, p.fault, twin, p.index, mode, control);
      var row := Row(Cell(g.clean, None), Cell(g.noTouch, None), Cell(g.faulted, Some(p.fault)),
                     Cell(g.restored, Some(twin)));
      if CellOk(row.clean) && CellOk(row.noTouch) && CellOk(row.faulted) && CellOk(row.restored)
      then Returned(row) else Raised(OtherError)
  }

  function KeyOf(p: GridPoint, mode: RestorationMode): Sha<PointKey> {
    Sha(PointKey(p.focus, Sha(p.fault), p.index, mode))
  }

  function ComparisonOf(p: GridPoint, mode: RestorationMode, r: Row): Comparison {
    Comparison(KeyOf(p, mode), p.focus, p.fault.instance.op, p.fault.instance.level, p.index,
               Sha(r.clean), Sha(r.faulted), Sha(r.noTouch), Sha(r.restored))
  }

  /** A Python dictionary keyed by content address keeps the first cell of each address. */
  function SetDefault(cells: seq<Cell>, c: Cell): seq<Cell> {
    if c in cells then cells else cells + [c]
  }

  /** Adds cells one by one. */
  function AddAll(cells: seq<Cell>, more: seq<Cell>): seq<Cell> {
    if more == [] then cells else SetDefault(AddAll(cells, more[..|more| - 1]), more[|more| - 1])
  }

  function CellsOf(r: Row): seq<Cell> {
    [r.clean, r.noTouch, r.faulted, r.restored]
  }

  // ------------------------------------------------------------------ the whole matrix

  datatype Built = Built(cells: seq<Cell>, comparisons: seq<Comparison>)

  ghost predicate PointsOk(points: seq<GridPoint>) {
    forall p <- points :: GridPointOk(p) && ManifestOk(p.fault)
  }

  /** How each point of a matrix is turned into its row, or refused. */
  type RowBuilder = GridPoint -> Reply<Row>

  function RowBuilderOf(clean: TrialManifest, mode: RestorationMode, control: Control): RowBuilder {
    p => RowOf(clean, p, mode, control)
  }

  function Extend(b: Built, p: GridPoint, mode: RestorationMode, row: Row): Built {
    Built(AddAll(b.cells, CellsOf(row)), b.comparisons + [ComparisonOf(p, mode, row)])
  }

  /** Cells and comparisons of the first n points, or the first refusal. */
  function Collect(points: seq<GridPoint>, rowOf: RowBuilder, n: nat, mode: RestorationMode): Reply<Built>
    requires n <= |points|
  {
    if n == 0 then Returned(Built([], []))
    else
      var before := Collect(points, rowOf, n - 1, mode);
      var row := rowOf(points[n - 1]);
      if before.Raised? then before
      else if row.Raised? then Raised(row.error)
      else Returned(Extend(before.value, points[n - 1], mode, row.value))
  }

  predicate Distinct<T(==)>(s: seq<T>) {
    forall i, j :: 0 <= i < j < |s| ==> s[i] != s[j]
  }

  predicate Buildable(id: string, clean: TrialManifest, points: seq<GridPoint>) {
    && !Blank(id) && clean.condition.Clean? && points != []
    && (forall p <- points :: p.fault.observability.Blind?) && Distinct(points)
  }

  // ------------------------------------------------------------------ the manifest's own checks

  predicate Addresses(cells: seq<Cell>, address: Sha<Cell>, condition: Condition) {
    exists c <- cells :: Sha(c) == address && c.trial.condition == condition
  }

  function Find(cells: seq<Cell>, address: Sha<Cell>): Option<Cell> {
    if cells == [] then None
    else if Sha(cells[0]) == address then Some(cells[0]) else Find(cells[1..], address)
  }

  predicate RowOk(m: MatrixManifest, row: Comparison) {
    && Addresses(m.cells, row.clean, Condition.Clean) && Addresses(m.cells, row.noTouch, NoTouch)
    && Addresses(m.cells, row.faulted, Faulted) && Addresses(m.cells, row.restored, Restored)
    && var (f, r) := (Find(m.cells, row.faulted), Find(m.cells, row.restored));
       f.Some? && r.Some? && InstancesOk(row, f.value, r.value)
  }

  /** Both fault cells are one operator instance, and the row's own. */
  predicate InstancesOk(row: Comparison, faulted: Cell, restored: Cell) {
    && faulted.fault.Some? && restored.fault.Some?
    && var (f, r) := (faulted.fault.value, restored.fault.value);
       && f.instance.op == r.instance.op == row.op && f.instance.level == r.instance.level == row.level
       && f.instance.(stop := 0) == r.instance.(stop := 0) && f.observability == r.observability
       && StaticView(ToDict(f.instance.op, f.instance.template.seed, f.parameters))
          == StaticView(ToDict(r.instance.op, r.instance.template.seed, r.parameters))
       && r.instance.stop == row.index < f.instance.stop
       && restored.trial.restorationIndex == Some(row.index) && restored.trial.restorationMode.Some?
       && row.point == Sha(PointKey(row.focus, Sha(f), row.index, restored.trial.restorationMode.value))
  }

  function Count(cells: seq<Cell>, condition: Condition): nat {
    if cells == [] then 0
    else Count(cells[1..], condition) + if cells[0].trial.condition == condition then 1 else 0
  }

  predicate Referenced(comparisons: seq<Comparison>, address: Sha<Cell>) {
    exists row <- comparisons :: address == row.clean || address == row.noTouch || address == row.faulted
                                 || address == row.restored
  }

  predicate CompleteGrid(comparisons: seq<Comparison>) {
    && |comparisons| == 70
    && forall op: OperatorId, level | 1 <= level <= 5 :: Covered(comparisons, op, level)
  }

  predicate Covered(comparisons: seq<Comparison>, op: OperatorId, level: int) {
    exists row <- comparisons :: row.op == op && row.level == level
  }

  /** Unique blind cells of one pair, with one clean and one no-touch baseline. */
  predicate CellInventoryOk(m: MatrixManifest) {
    && m.cells != [] && Distinct(m.cells)
    && (forall c <- m.cells :: PairKey(c.trial) == m.pairKey)
    && (forall c <- m.cells :: c.fault.Some? ==> c.fault.value.observability.Blind?)
    && Count(m.cells, Condition.Clean) == 1 && Count(m.cells, NoTouch) == 1
  }

  /** Unique comparison rows that resolve, and no cell without a row. */
  predicate RowInventoryOk(m: MatrixManifest) {
    && m.comparisons != []
    && (forall i, j :: 0 <= i < j < |m.comparisons| ==> m.comparisons[i].point != m.comparisons[j].point)
    && (forall row <- m.comparisons :: RowOk(m, row))
    && (forall c <- m.cells :: Referenced(m.comparisons, Sha(c)))
  }

  /** Everything the manifest's constructor checks. */
  predicate InventoryOk(m: MatrixManifest) {
    !Blank(m.id) && CellInventoryOk(m) && RowInventoryOk(m) && (m.kind.Primary? ==> CompleteGrid(m.comparisons))
  }

  function MakeManifest(m: MatrixManifest): Reply<MatrixManifest> {
    if InventoryOk(m) then Returned(m) else Raised(OtherError)
  }

  // ------------------------------------------------------------------ the builder

  function Build(d: Digests, id: string, kind: GridKind, clean: TrialManifest, points: seq<GridPoint>,
                 mode: RestorationMode, control: Control): Reply<MatrixManifest>
  {
    if !Buildable(id, clean, points) then Raised(OtherError)
    else
      var ordered := Sort(PointOrder(d), points);
      var built :- Collect(ordered, RowBuilderOf(clean, mode, control), |ordered|, mode);
      MakeManifest(MatrixManifest(id, kind, PairKey(clean), Sort(CellOrder(d), built.cells), built.comparisons))
  }

  /** The loop of the builder: a dictionary of cells and a list of comparisons. */
  method CollectRows(ordered: seq<GridPoint>, rowOf: RowBuilder, mode: RestorationMode) returns (r: Reply<Built>)
    ensures r == Collect(ordered, rowOf, |ordered|, mode)
  {
    var built := Built([], []);
    for n := 0 to |ordered|
      invariant Collect(ordered, rowOf, n, mode) == Returned(built)
    {
      var row := rowOf(ordered[n]);
      if row.Raised? {
        CollectFails(ordered, rowOf, n + 1, |ordered|, mode);
        return Raised(row.error);
      }
      var cells := AddCells(built.cells, CellsOf(row.value));
      built := Built(cells, built.comparisons + [ComparisonOf(ordered[n], mode, row.value)]);
    }
    return Returned(built);
  }

  method BuildMatrix(d: Digests, id: string, kind: GridKind, clean: TrialManifest, points: seq<GridPoint>,
                     mode: RestorationMode, control: Control) returns (r: Reply<MatrixManifest>)
    ensures r == Build(d, id, kind, clean, points, mode, control)
  {
    if !Buildable(id, clean, points) { return Raised(OtherError); }
    var built := CollectRows(Sort(PointOrder(d), points), RowBuilderOf(clean, mode, control), mode);
    if built.Raised? { return Raised(built.error); }
    return MakeManifest(MatrixManifest(id, kind, PairKey(clean), Sort(CellOrder(d), built.value.cells),
                                       built.value.comparisons));
  }

  method AddCells(cells: seq<Cell>, more: seq<Cell>) returns (r: seq<Cell>)
    ensures r == AddAll(cells, more)
  {
    r := cells;
    for n := 0 to |more|
      invariant r == AddAll(cells, more[..n])
    {
      assert more[..n + 1][..n] == more[..n];
      if more[n] !in r { r := r + [more[n]]; }
    }
    assert more[..|more|] == more;
  }

  lemma {:induction false} CollectFails(points: seq<GridPoint>, rowOf: RowBuilder, n: nat, m: nat,
                                        mode: RestorationMode)
    requires n <= m <= |points| && Collect(points, rowOf, n, mode).Raised?
    ensures Collect(points, rowOf, m, mode) == Collect(points, rowOf, n, mode)
  {
    if n < m { CollectFails(points, rowOf, n, m - 1, mode); }
  }

  // ------------------------------------------------------------------ the primary grid

  predicate PrimaryGrid(faults: seq<FaultManifest>) {
    && |faults| == 70
    && (set m <- faults :: (m.instance.op, m.instance.level)) == PrimaryPairs()
    && forall m <- faults :: m.observability.Blind?
  }

  /** Every registered operator at every severity level. */
  function PrimaryPairs(): set<(OperatorId, int)> {
    PairsFor(OPERATORS)
  }

  function PairsFor(ops: seq<OperatorId>): set<(OperatorId, int)> {
    set op <- ops, level | 1 <= level <= 5 :: (op, level)
  }

  function PrimaryFocus(m: FaultManifest): string {
    OperatorName(m.instance.op) + ":L"
    + if 1 <= m.instance.level <= 5 then ["12345"[m.instance.level - 1]] else ""
  }

  function PrimaryPoints(faults: seq<FaultManifest>, index: int): seq<GridPoint> {
    seq(|faults|, i requires 0 <= i < |faults| => GridPoint(PrimaryFocus(faults[i]), faults[i], index))
  }

  /** The complete primary matrix: one point per registered operator and severity. */
  function BuildPrimary(d: Digests, id: string, clean: TrialManifest, faults: seq<FaultManifest>, index: int,
                        mode: RestorationMode, control: Control): Reply<MatrixManifest>
  {
    var points := PrimaryPoints(faults, index);
    if !PrimaryGrid(faults) || exists p <- points :: !GridPointOk(p) then Raised(OtherError)
    else Build(d, id, Primary, clean, points, mode, control)
  }
}
