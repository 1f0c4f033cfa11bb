/**
 * The standard PLONK circuit: three advice columns `a, b, c`, five fixed
 * selector columns `sl, sr, so, sm, sc`, the single custom gate
 * `a·sl + b·sr + a·b·sm + c·so + sc`, and the helpers that lay one row of
 * it out in a region of its own.
 */
module PlonkApi {
  import opened Field
  import opened Columns

  /** The columns of the configuration (`PlonkConfig`). */
  datatype PlonkConfig = PlonkConfig(a: Column, b: Column, c: Column,
                                     sl: Column, sr: Column, so: Column, sm: Column, sc: Column)

  /** Advice columns `a, b, c` and fixed columns `sl, sr, so, sm, sc`, all distinct. */
  predicate WellFormed(cfg: PlonkConfig)
  {
    && cfg.a.kind == Advice && cfg.b.kind == Advice && cfg.c.kind == Advice
    && cfg.sl.kind == Fixed && cfg.sr.kind == Fixed && cfg.so.kind == Fixed
    && cfg.sm.kind == Fixed && cfg.sc.kind == Fixed
    && cfg.a != cfg.b && cfg.a != cfg.c && cfg.b != cfg.c
    && cfg.sl != cfg.sr && cfg.sl != cfg.so && cfg.sl != cfg.sm && cfg.sl != cfg.sc
    && cfg.sr != cfg.so && cfg.sr != cfg.sm && cfg.sr != cfg.sc
    && cfg.so != cfg.sm && cfg.so != cfg.sc
    && cfg.sm != cfg.sc
  }

  /** A gate polynomial over queries of the current row (`Rotation::cur()`). */
  datatype Expression =
    | Query(column: Column)
    | Sum(left: Expression, right: Expression)
    | Product(left: Expression, right: Expression)

  /** The cells of one row; a cell nobody assigned holds zero. */
  function CellValue(cells: map<Column, Fe>, column: Column): Fe
  {
    if column in cells then cells[column] else 0
  }

  function Evaluate(e: Expression, cells: map<Column, Fe>): Fe
  {
    match e
    case Query(column) => CellValue(cells, column)
    case Sum(l, r) => Add(Evaluate(l, cells), Evaluate(r, cells))
    case Product(l, r) => Mul(Evaluate(l, cells), Evaluate(r, cells))
  }

  /** The polynomial `configure` registers: `a * sl + b * sr + a * b * sm + c * so + sc`. */
  function GatePolynomial(cfg: PlonkConfig): Expression
  {
    Sum(Sum(Sum(Sum(Product(Query(cfg.a), Query(cfg.sl)),
                    Product(Query(cfg.b), Query(cfg.sr))),
                Product(Product(Query(cfg.a), Query(cfg.b)), Query(cfg.sm))),
            Product(Query(cfg.c), Query(cfg.so))),
        Query(cfg.sc))
  }

  /** The eight cells of one row that the gate reads. */
  datatype Row = Row(a: Fe, b: Fe, c: Fe, sl: Fe, sr: Fe, so: Fe, sm: Fe, sc: Fe)

  function RowOf(cfg: PlonkConfig, cells: map<Column, Fe>): Row
  {
    Row(CellValue(cells, cfg.a), CellValue(cells, cfg.b), CellValue(cells, cfg.c),
        CellValue(cells, cfg.sl), CellValue(cells, cfg.sr), CellValue(cells, cfg.so),
        CellValue(cells, cfg.sm), CellValue(cells, cfg.sc))
  }

  /** The gate on a row; the row satisfies the gate when this is zero. */
  function GateValue(r: Row): Fe
  {
    Add(Add(Add(Add(Mul(r.a, r.sl), Mul(r.b, r.sr)), Mul(Mul(r.a, r.b), r.sm)), Mul(r.c, r.so)), r.sc)
  }

  /** The registered polynomial, evaluated on any row, is the gate on that row. */
  lemma GatePolynomialIsGate(cfg: PlonkConfig, cells: map<Column, Fe>)
    ensures Evaluate(GatePolynomial(cfg), cells) == GateValue(RowOf(cfg, cells))
  {
    var r := RowOf(cfg, cells);
    var qa, qb, qc := Query(cfg.a), Query(cfg.b), Query(cfg.c);
    var al := Product(qa, Query(cfg.sl));
    var br := Product(qb, Query(cfg.sr));
    var ab := Product(qa, qb);
    var abm := Product(ab, Query(cfg.sm));
    var co := Product(qc, Query(cfg.so));
    var s1 := Sum(al, br);
    var s2 := Sum(s1, abm);
    var s3 := Sum(s2, co);
    var t1, t2, t3, t4 := Mul(r.a, r.sl), Mul(r.b, r.sr), Mul(r.a, r.b), Mul(r.c, r.so);
    assert Evaluate(al, cells) == t1;
    assert Evaluate(br, cells) == t2;
    assert Evaluate(ab, cells) == t3;
    var t5 := Mul(t3, r.sm);
    assert Evaluate(abm, cells) == t5;
    assert Evaluate(co, cells) == t4;
    var u1 := Add(t1, t2);
    assert Evaluate(s1, cells) == u1;
    var u2 := Add(u1, t5);
    assert Evaluate(s2, cells) == u2;
    var u3 := Add(u2, t4);
    assert Evaluate(s3, cells) == u3;
    assert GatePolynomial(cfg) == Sum(s3, Query(cfg.sc));
    assert GateValue(r) == Add(u3, r.sc);
  }

  /** The gate is the integer polynomial `a·sl + b·sr + a·b·sm + c·so + sc` reduced modulo P. */
  lemma GateValueIsIntegerPolynomial(r: Row)
    ensures GateValue(r) == Reduce(r.a * r.sl + r.b * r.sr + r.a * r.b * r.sm + r.c * r.so + r.sc)
  {
    ReduceCanonical(r.a);
    ReduceCanonical(r.b);
    ReduceCanonical(r.c);
    ReduceCanonical(r.sc);
    MulReduceLeft(r.a, r.sl);
    MulReduceLeft(r.b, r.sr);
    MulReduceLeft(r.a, r.b);
    MulReduceLeft(r.a * r.b, r.sm);
    MulReduceLeft(r.c, r.so);
    AddReduce(r.a * r.sl, r.b * r.sr);
    AddReduce(r.a * r.sl + r.b * r.sr, r.a * r.b * r.sm);
    AddReduce(r.a * r.sl + r.b * r.sr + r.a * r.b * r.sm, r.c * r.so);
    AddReduce(r.a * r.sl + r.b * r.sr + r.a * r.b * r.sm + r.c * r.so, r.sc);
  }

  // ---------------------------------------------------------------------
  // Configuration.

  datatype Gate = Gate(name: string, polynomials: seq<Expression>)

  /** The part of halo2's `ConstraintSystem` that `configure` changes. */
  class ConstraintSystem {
    var numAdviceColumns: nat
    var numFixedColumns: nat
    /** The columns with equality enabled (those the permutation argument covers). */
    var permutation: set<Column>
    var gates: seq<Gate>

    constructor ()
      ensures numAdviceColumns == 0 && numFixedColumns == 0 && permutation == {} && gates == []
    {
      numAdviceColumns, numFixedColumns, permutation, gates := 0, 0, {}, [];
    }

    method AdviceColumn() returns (column: Column)
      modifies this
      ensures column == Column(Advice, old(numAdviceColumns))
      ensures numAdviceColumns == old(numAdviceColumns) + 1
      ensures numFixedColumns == old(numFixedColumns) && permutation == old(permutation) && gates == old(gates)
    {
      column := Column(Advice, numAdviceColumns);
      numAdviceColumns := numAdviceColumns + 1;
    }

    method FixedColumn() returns (column: Column)
      modifies this
      ensures column == Column(Fixed, old(numFixedColumns))
      ensures numFixedColumns == old(numFixedColumns) + 1
      ensures numAdviceColumns == old(numAdviceColumns) && permutation == old(permutation) && gates == old(gates)
    {
      column := Column(Fixed, numFixedColumns);
      numFixedColumns := numFixedColumns + 1;
    }

    method EnableEquality(column: Column)
      modifies this
      ensures permutation == old(permutation) + {column}
      ensures numAdviceColumns == old(numAdviceColumns) && numFixedColumns == old(numFixedColumns) && gates == old(gates)
    {
      permutation := permutation + {column};
    }

    method CreateGate(name: string, polynomials: seq<Expression>)
      modifies this
      ensures gates == old(gates) + [Gate(name, polynomials)]
      ensures numAdviceColumns == old(numAdviceColumns) && numFixedColumns == old(numFixedColumns)
      ensures permutation == old(permutation)
    {
      gates := gates + [Gate(name, polynomials)];
    }
  }

  /**
   * `PlonkConfig::configure`: three advice columns with equality enabled,
   * then the fixed columns in the order `sm, sl, sr, so, sc`, then the gate.
   */
  method Configure(meta: ConstraintSystem) returns (cfg: PlonkConfig)
    modifies meta
    ensures WellFormed(cfg)
    ensures cfg.a == Column(Advice, old(meta.numAdviceColumns))
    ensures cfg.b == Column(Advice, old(meta.numAdviceColumns) + 1)
    ensures cfg.c == Column(Advice, old(meta.numAdviceColumns) + 2)
    ensures cfg.sm == Column(Fixed, old(meta.numFixedColumns))
    ensures cfg.sl == Column(Fixed, old(meta.numFixedColumns) + 1)
    ensures cfg.sr == Column(Fixed, old(meta.numFixedColumns) + 2)
    ensures cfg.so == Column(Fixed, old(meta.numFixedColumns) + 3)
    ensures cfg.sc == Column(Fixed, old(meta.numFixedColumns) + 4)
    ensures meta.numAdviceColumns == old(meta.numAdviceColumns) + 3
    ensures meta.numFixedColumns == old(meta.numFixedColumns) + 5
    ensures meta.permutation == old(meta.permutation) + {cfg.a, cfg.b, cfg.c}
    ensures forall column :: column in meta.permutation - old(meta.permutation) ==> column.kind == Advice
    ensures meta.gates == old(meta.gates) + [Gate("Combined add-mult", [GatePolynomial(cfg)])]
  {
    var a := meta.AdviceColumn();
    var b := meta.AdviceColumn();
    var c := meta.AdviceColumn();

    meta.EnableEquality(a);
    meta.EnableEquality(b);
    meta.EnableEquality(c);

    var sm := meta.FixedColumn();
    var sl := meta.FixedColumn();
    var sr := meta.FixedColumn();
    var so := meta.FixedColumn();
    var sc := meta.FixedColumn();

    cfg := PlonkConfig(a, b, c, sl, sr, so, sm, sc);
    meta.CreateGate("Combined add-mult", [GatePolynomial(cfg)]);
  }

  // ---------------------------------------------------------------------
  // Regions and cells.

  /** One cell write of a region: column, offset within the region, value. */
  datatype Assignment = Assignment(column: Column, offset: nat, value: Fe)

  /** A cell: the region that wrote it, its column and its offset in that region. */
  datatype Cell = Cell(region: nat, column: Column, offset: nat)

  /** The cells at one offset of a region; a later write of a cell replaces an earlier one. */
  function RowAt(region: seq<Assignment>, offset: nat): map<Column, Fe>
  {
    if region == [] then map[]
    else
      var cells := RowAt(region[..|region| - 1], offset);
      var last := region[|region| - 1];
      if last.offset == offset then cells[last.column := last.value] else cells
  }

  /** The rows a region occupies: one more than the largest offset it writes. */
  function Height(region: seq<Assignment>): nat
  {
    if region == [] then 0
    else
      var h := Height(region[..|region| - 1]);
      var last := region[|region| - 1];
      if last.offset + 1 > h then last.offset + 1 else h
  }

  /** Writing cells one after another: the row at an offset after one more write. */
  lemma RowAtAppend(region: seq<Assignment>, write: Assignment, offset: nat)
    ensures RowAt(region + [write], offset)
         == if write.offset == offset then RowAt(region, offset)[write.column := write.value] else RowAt(region, offset)
  {
    assert (region + [write])[..|region|] == region;
  }

  /** In a region of distinct cells at offset 0, each cell holds the value written to it. */
  lemma {:induction false} RowAtDistinct(region: seq<Assignment>)
    requires forall i :: 0 <= i < |region| ==> region[i].offset == 0
    requires forall i, j :: 0 <= i < j < |region| ==> region[i].column != region[j].column
    ensures forall i :: 0 <= i < |region| ==> region[i].column in RowAt(region, 0) && RowAt(region, 0)[region[i].column] == region[i].value
    ensures forall column :: column in RowAt(region, 0) ==> exists i :: 0 <= i < |region| && region[i].column == column
  {
    if region != [] {
      var init := region[..|region| - 1];
      RowAtDistinct(init);
      assert region == init + [region[|region| - 1]];
      RowAtAppend(init, region[|region| - 1], 0);
      forall column | column in RowAt(region, 0)
        ensures exists i :: 0 <= i < |region| && region[i].column == column
      {
        if column != region[|region| - 1].column {
          var i :| 0 <= i < |init| && init[i].column == column;
          assert region[i].column == column;
        }
      }
    }
  }

  /**
   * What the layouter records: the finished regions in order, the region
   * being filled, and the equality constraints.
   */
  class Layouter {
    var regions: seq<seq<Assignment>>
    var current: seq<Assignment>
    var equalities: seq<(Cell, Cell)>

    constructor ()
      ensures regions == [] && current == [] && equalities == []
    {
      regions, current, equalities := [], [], [];
    }

    /** The start of `assign_region`: a fresh, empty region. */
    method BeginRegion()
      modifies this
      ensures current == []
      ensures regions == old(regions) && equalities == old(equalities)
    {
      current := [];
    }

    /** The end of `assign_region`: the filled region joins the others. */
    method EndRegion()
      modifies this
      ensures regions == old(regions) + [old(current)]
      ensures current == [] && equalities == old(equalities)
    {
      regions := regions + [current];
      current := [];
    }

    method AssignAdvice(column: Column, offset: nat, value: Fe) returns (cell: Cell)
      requires column.kind == Advice
      modifies this
      ensures current == old(current) + [Assignment(column, offset, value)]
      ensures cell == Cell(|regions|, column, offset)
      ensures regions == old(regions) && equalities == old(equalities)
    {
      current := current + [Assignment(column, offset, value)];
      cell := Cell(|regions|, column, offset);
    }

    method AssignFixed(column: Column, offset: nat, value: Fe)
      requires column.kind == Fixed
      modifies this
      ensures current == old(current) + [Assignment(column, offset, value)]
      ensures regions == old(regions) && equalities == old(equalities)
    {
      current := current + [Assignment(column, offset, value)];
    }

    /** `constrain_equal`: record that two cells must hold the same value. */
    method ConstrainEqual(left: Cell, right: Cell)
      modifies this
      ensures equalities == old(equalities) + [(left, right)]
      ensures regions == old(regions) && current == old(current)
    {
      equalities := equalities + [(left, right)];
    }
  }

  /** The argument `raw_poly` takes: three wire values and five selector values. */
  datatype PolyTriple = PolyTriple(a: Fe, b: Fe, c: Fe, qm: Fe, ql: Fe, qr: Fe, qo: Fe, qc: Fe)

  /** The writes of `raw_multiply`, in order; `sc` is not written. */
  function MultiplyRegion(cfg: PlonkConfig, a: Fe, b: Fe, c: Fe): seq<Assignment>
  {
    [Assignment(cfg.a, 0, a), Assignment(cfg.b, 0, b), Assignment(cfg.c, 0, c),
     Assignment(cfg.sl, 0, 0), Assignment(cfg.sr, 0, 0), Assignment(cfg.so, 0, 1), Assignment(cfg.sm, 0, 1)]
  }

  /** The writes of `raw_add`, in order; `sc` is not written. */
  function AddRegion(cfg: PlonkConfig, a: Fe, b: Fe, c: Fe): seq<Assignment>
  {
    [Assignment(cfg.a, 0, a), Assignment(cfg.b, 0, b), Assignment(cfg.c, 0, c),
     Assignment(cfg.sl, 0, 1), Assignment(cfg.sr, 0, 1), Assignment(cfg.so, 0, 1), Assignment(cfg.sm, 0, 0)]
  }

  /** The writes of `raw_poly`, in order. */
  function PolyRegion(cfg: PlonkConfig, t: PolyTriple): seq<Assignment>
  {
    [Assignment(cfg.a, 0, t.a), Assignment(cfg.b, 0, t.b), Assignment(cfg.c, 0, t.c),
     Assignment(cfg.sl, 0, t.ql), Assignment(cfg.sr, 0, t.qr), Assignment(cfg.so, 0, t.qo),
     Assignment(cfg.sm, 0, t.qm), Assignment(cfg.sc, 0, t.qc)]
  }

  /** Every write is at offset 0, so the region is one row high. */
  lemma OneRowRegion(region: seq<Assignment>)
    requires region != []
    requires forall i :: 0 <= i < |region| ==> region[i].offset == 0
    ensures Height(region) == 1
  {
    if |region| > 1 {
      OneRowRegion(region[..|region| - 1]);
    }
  }

  /**
   * A `raw_multiply` row: one row high, selectors `sl = sr = 0`, `so = sm = 1`
   * and `sc` unwritten, so the gate holds exactly when `a·b + c ≡ 0 (mod P)`.
   */
  lemma MultiplyRegionGate(cfg: PlonkConfig, a: Fe, b: Fe, c: Fe)
    requires WellFormed(cfg)
    ensures Height(MultiplyRegion(cfg, a, b, c)) == 1
    ensures cfg.sc !in RowAt(MultiplyRegion(cfg, a, b, c), 0)
    ensures RowOf(cfg, RowAt(MultiplyRegion(cfg, a, b, c), 0)) == Row(a, b, c, 0, 0, 1, 1, 0)
    ensures GateValue(RowOf(cfg, RowAt(MultiplyRegion(cfg, a, b, c), 0))) == Add(Mul(a, b), c)
    ensures GateValue(RowOf(cfg, RowAt(MultiplyRegion(cfg, a, b, c), 0))) == 0 <==> (a * b + c) % P == 0
  {
    var region := MultiplyRegion(cfg, a, b, c);
    OneRowRegion(region);
    RowAtDistinct(region);
    var cells := RowAt(region, 0);
    assert region[0].column == cfg.a && region[1].column == cfg.b && region[2].column == cfg.c;
    assert region[3].column == cfg.sl && region[4].column == cfg.sr;
    assert region[5].column == cfg.so && region[6].column == cfg.sm;
    var row := RowOf(cfg, cells);
    assert row == Row(a, b, c, 0, 0, 1, 1, 0);
    forall i | 0 <= i < |region|
      ensures region[i].column != cfg.sc
    {
    }
    MulZeroOne(a);
    MulZeroOne(b);
    MulZeroOne(c);
    MulZeroOne(Mul(a, b));
    GateValueIsIntegerPolynomial(row);
  }

  /**
   * A `raw_add` row: one row high, selectors `sl = sr = so = 1`, `sm = 0` and
   * `sc` unwritten, so the gate holds exactly when `a + b + c ≡ 0 (mod P)`.
   */
  lemma AddRegionGate(cfg: PlonkConfig, a: Fe, b: Fe, c: Fe)
    requires WellFormed(cfg)
    ensures Height(AddRegion(cfg, a, b, c)) == 1
    ensures cfg.sc !in RowAt(AddRegion(cfg, a, b, c), 0)
    ensures RowOf(cfg, RowAt(AddRegion(cfg, a, b, c), 0)) == Row(a, b, c, 1, 1, 1, 0, 0)
    ensures GateValue(RowOf(cfg, RowAt(AddRegion(cfg, a, b, c), 0))) == Add(Add(a, b), c)
    ensures GateValue(RowOf(cfg, RowAt(AddRegion(cfg, a, b, c), 0))) == 0 <==> (a + b + c) % P == 0
  {
    var region := AddRegion(cfg, a, b, c);
    OneRowRegion(region);
    RowAtDistinct(region);
    var cells := RowAt(region, 0);
    assert region[0].column == cfg.a && region[1].column == cfg.b && region[2].column == cfg.c;
    assert region[3].column == cfg.sl && region[4].column == cfg.sr;
    assert region[5].column == cfg.so && region[6].column == cfg.sm;
    var row := RowOf(cfg, cells);
    assert row == Row(a, b, c, 1, 1, 1, 0, 0);
    forall i | 0 <= i < |region|
      ensures region[i].column != cfg.sc
    {
    }
    MulZeroOne(a);
    MulZeroOne(b);
    MulZeroOne(c);
    MulZeroOne(Mul(a, b));
    GateValueIsIntegerPolynomial(row);
  }

  /** The row `raw_poly` fills: the triple's wires and selectors, field for field. */
  lemma PolyRegionRow(cfg: PlonkConfig, t: PolyTriple)
    requires WellFormed(cfg)
    ensures Height(PolyRegion(cfg, t)) == 1
    ensures RowOf(cfg, RowAt(PolyRegion(cfg, t), 0)) == Row(t.a, t.b, t.c, t.ql, t.qr, t.qo, t.qm, t.qc)
  {
    var region := PolyRegion(cfg, t);
    OneRowRegion(region);
    RowAtDistinct(region);
    assert region[0].column == cfg.a && region[1].column == cfg.b && region[2].column == cfg.c;
    assert region[3].column == cfg.sl && region[4].column == cfg.sr;
    assert region[5].column == cfg.so && region[6].column == cfg.sm && region[7].column == cfg.sc;
  }

  lemma ReorderPolynomial(a: int, b: int, c: int, qm: int, ql: int, qr: int, qo: int, qc: int)
    ensures a * ql + b * qr + a * b * qm + c * qo + qc == qm * a * b + ql * a + qr * b + qo * c + qc
  {
    assert a * b * qm == qm * a * b;
  }

  /**
   * A `raw_poly` row: one row high, the triple's wires in `a, b, c` and its
   * `ql, qr, qo, qm, qc` in `sl, sr, so, sm, sc`, so the gate is the triple's
   * own polynomial `qm·a·b + ql·a + qr·b + qo·c + qc` modulo P.
   */
  lemma PolyRegionGate(cfg: PlonkConfig, t: PolyTriple)
    requires WellFormed(cfg)
    ensures Height(PolyRegion(cfg, t)) == 1
    ensures RowOf(cfg, RowAt(PolyRegion(cfg, t), 0)) == Row(t.a, t.b, t.c, t.ql, t.qr, t.qo, t.qm, t.qc)
    ensures GateValue(RowOf(cfg, RowAt(PolyRegion(cfg, t), 0)))
         == Reduce(t.qm * t.a * t.b + t.ql * t.a + t.qr * t.b + t.qo * t.c + t.qc)
  {
    PolyRegionRow(cfg, t);
    GateValueIsIntegerPolynomial(Row(t.a, t.b, t.c, t.ql, t.qr, t.qo, t.qm, t.qc));
    ReorderPolynomial(t.a, t.b, t.c, t.qm, t.ql, t.qr, t.qo, t.qc);
  }

  /** The equalities a list of recorded constraints stands for. */
  function EqualitySet(equalities: seq<(Cell, Cell)>): set<(Cell, Cell)>
  {
    set i | 0 <= i < |equalities| :: equalities[i]
  }

  /** Recording an equality twice, as `copy` does, constrains the same as recording it once. */
  lemma CopyTwiceIsCopyOnce(equalities: seq<(Cell, Cell)>, left: Cell, right: Cell)
    ensures EqualitySet(equalities + [(left, right), (left, right)]) == EqualitySet(equalities + [(left, right)])
    ensures EqualitySet(equalities + [(left, right)]) == EqualitySet(equalities) + {(left, right)}
  {
    var once := equalities + [(left, right)];
    var twice := equalities + [(left, right), (left, right)];
    assert twice[|twice| - 1] == once[|once| - 1];
    forall p | p in EqualitySet(twice)
      ensures p in EqualitySet(once)
    {
      var i :| 0 <= i < |twice| && twice[i] == p;
      if i == |twice| - 1 {
        assert once[|once| - 1] == p;
      } else {
        assert once[i] == p;
      }
    }
    forall p | p in EqualitySet(once)
      ensures p in EqualitySet(twice)
    {
      var i :| 0 <= i < |once| && once[i] == p;
      assert twice[i] == p;
    }
    forall p | p in EqualitySet(equalities)
      ensures p in EqualitySet(once)
    {
      var i :| 0 <= i < |equalities| && equalities[i] == p;
      assert once[i] == p;
    }
    forall p | p in EqualitySet(once)
      ensures p in EqualitySet(equalities) + {(left, right)}
    {
      var i :| 0 <= i < |once| && once[i] == p;
      if i < |equalities| {
        assert equalities[i] == p;
      }
    }
  }

  /** The standard-PLONK helpers over a configuration (`StandardPlonk`). */
  class StandardPlonk {
    const config: PlonkConfig

    constructor (config: PlonkConfig)
      ensures this.config == config
    {
      this.config := config;
    }

    /** `raw_multiply`: lhs, rhs, out in `a, b, c`; `sl = 0, sr = 0, so = 1, sm = 1`. */
    method RawMultiply(layouter: Layouter, a: Fe, b: Fe, c: Fe) returns (lhs: Cell, rhs: Cell, out: Cell)
      requires WellFormed(config)
      modifies layouter
      ensures layouter.regions == old(layouter.regions) + [MultiplyRegion(config, a, b, c)]
      ensures layouter.current == [] && layouter.equalities == old(layouter.equalities)
      ensures var r := |old(layouter.regions)|;
              lhs == Cell(r, config.a, 0) && rhs == Cell(r, config.b, 0) && out == Cell(r, config.c, 0)
    {
      layouter.BeginRegion();
      lhs := layouter.AssignAdvice(config.a, 0, a);
      rhs := layouter.AssignAdvice(config.b, 0, b);
      out := layouter.AssignAdvice(config.c, 0, c);
      layouter.AssignFixed(config.sl, 0, 0);
      layouter.AssignFixed(config.sr, 0, 0);
      layouter.AssignFixed(config.so, 0, 1);
      layouter.AssignFixed(config.sm, 0, 1);
      assert layouter.current == MultiplyRegion(config, a, b, c);
      layouter.EndRegion();
    }

    /** `raw_add`: lhs, rhs, out in `a, b, c`; `sl = 1, sr = 1, so = 1, sm = 0`. */
    method RawAdd(layouter: Layouter, a: Fe, b: Fe, c: Fe) returns (lhs: Cell, rhs: Cell, out: Cell)
      requires WellFormed(config)
      modifies layouter
      ensures layouter.regions == old(layouter.regions) + [AddRegion(config, a, b, c)]
      ensures layouter.current == [] && layouter.equalities == old(layouter.equalities)
      ensures var r := |old(layouter.regions)|;
              lhs == Cell(r, config.a, 0) && rhs == Cell(r, config.b, 0) && out == Cell(r, config.c, 0)
    {
      layouter.BeginRegion();
      lhs := layouter.AssignAdvice(config.a, 0, a);
      rhs := layouter.AssignAdvice(config.b, 0, b);
      out := layouter.AssignAdvice(config.c, 0, c);
      layouter.AssignFixed(config.sl, 0, 1);
      layouter.AssignFixed(config.sr, 0, 1);
      layouter.AssignFixed(config.so, 0, 1);
      layouter.AssignFixed(config.sm, 0, 0);
      assert layouter.current == AddRegion(config, a, b, c);
      layouter.EndRegion();
    }

    /** `raw_poly`: the triple's wires and all five of its selectors. */
    method RawPoly(layouter: Layouter, t: PolyTriple) returns (lhs: Cell, rhs: Cell, out: Cell)
      requires WellFormed(config)
      modifies layouter
      ensures layouter.regions == old(layouter.regions) + [PolyRegion(config, t)]
      ensures layouter.current == [] && layouter.equalities == old(layouter.equalities)
      ensures var r := |old(layouter.regions)|;
              lhs == Cell(r, config.a, 0) && rhs == Cell(r, config.b, 0) && out == Cell(r, config.c, 0)
    {
      layouter.BeginRegion();
      lhs := layouter.AssignAdvice(config.a, 0, t.a);
      rhs := layouter.AssignAdvice(config.b, 0, t.b);
      out := layouter.AssignAdvice(config.c, 0, t.c);
      layouter.AssignFixed(config.sl, 0, t.ql);
      layouter.AssignFixed(config.sr, 0, t.qr);
      layouter.AssignFixed(config.so, 0, t.qo);
      layouter.AssignFixed(config.sm, 0, t.qm);
      layouter.AssignFixed(config.sc, 0, t.qc);
      assert layouter.current == PolyRegion(config, t);
      layouter.EndRegion();
    }

    /** `copy`: an empty region that records the equality `(left, right)` twice. */
    method Copy(layouter: Layouter, left: Cell, right: Cell)
      modifies layouter
      ensures layouter.regions == old(layouter.regions) + [[]]
      ensures layouter.current == []
      ensures layouter.equalities == old(layouter.equalities) + [(left, right), (left, right)]
      ensures EqualitySet(layouter.equalities) == EqualitySet(old(layouter.equalities)) + {(left, right)}
    {
      layouter.BeginRegion();
      layouter.ConstrainEqual(left, right);
      layouter.ConstrainEqual(left, right);
      layouter.EndRegion();
      CopyTwiceIsCopyOnce(old(layouter.equalities), left, right);
    }
  }
}
