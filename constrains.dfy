/**
 * The translation of ACIR opcodes into rows of the backend's five-column
 * main gate: the arithmetic row (staging a `NoirConstraint` and emitting
 * it), the range request, and the split of an ECDSA signature.
 */
module Constrains {
  import opened Results
  import opened Field

  const U32_LIMIT: nat := 0x1_0000_0000
  const I32_LIMIT: int := 0x8000_0000

  type U32 = x: nat | x < U32_LIMIT
  type I32 = x: int | -I32_LIMIT <= x < I32_LIMIT

  function AsU32(i: I32): U32
  {
    if i >= 0 then i else i + U32_LIMIT
  }

  /** `u as i32`: the same 32 bits read as two's complement; undone by `as u32`. */
  function AsI32(u: U32): (i: I32)
    ensures AsU32(i) == u
    ensures i == 0 <==> u == 0
  {
    if u < I32_LIMIT then u else u - U32_LIMIT
  }

  /**
   * An ACIR field element. ACIR's field is taken to be the backend's field
   * itself, so converting a value to the backend is the identity.
   */
  type FieldElement = Fe

  /** `noir_field_to_halo2_field`. */
  function NoirFieldToHalo2Field(x: FieldElement): Fe
  {
    x
  }

  datatype Witness = Witness(index: U32)

  /** The witness values, in the order the upstream compiler declared them. */
  datatype WitnessMap = WitnessMap(entries: seq<(Witness, FieldElement)>)

  /**
   * `get_index`: the value at an ordinal position. On a densely numbered map
   * it reads the value stored under the witness with that index.
   */
  function GetIndex(wm: WitnessMap, position: U32): (r: Option<FieldElement>)
    ensures r.Some? <==> position < |wm.entries|
    ensures r.Some? ==> r.value == wm.entries[position].1
    ensures DenselyNumbered(wm) ==> r == Get(wm, Witness(position))
  {
    GetOnDenselyNumbered(wm, position);
    if position < |wm.entries| then Some(wm.entries[position].1) else None
  }

  /** `get`: the value stored under a witness. */
  function Get(wm: WitnessMap, w: Witness): Option<FieldElement>
    decreases |wm.entries|
  {
    if wm.entries == [] then None
    else if wm.entries[0].0 == w then Some(wm.entries[0].1)
    else Get(WitnessMap(wm.entries[1..]), w)
  }

  /** `unwrap_or(&FieldElement::zero())`. */
  function ValueOrZero(value: Option<FieldElement>): FieldElement
  {
    if value.Some? then value.value else 0
  }

  /** Each witness appears at most once. */
  predicate UniqueKeys(wm: WitnessMap)
  {
    forall i, j :: 0 <= i < j < |wm.entries| ==> wm.entries[i].0 != wm.entries[j].0
  }

  /** With unique keys, `get` finds an entry wherever it sits, and yields nothing for an absent witness. */
  lemma {:induction false} GetFindsEntry(wm: WitnessMap, w: Witness)
    requires UniqueKeys(wm)
    ensures forall j :: 0 <= j < |wm.entries| && wm.entries[j].0 == w ==> Get(wm, w) == Some(wm.entries[j].1)
    ensures (forall j :: 0 <= j < |wm.entries| ==> wm.entries[j].0 != w) ==> Get(wm, w) == None
    decreases |wm.entries|
  {
    if wm.entries != [] {
      var rest := WitnessMap(wm.entries[1..]);
      GetFindsEntry(rest, w);
      forall j | 0 <= j < |wm.entries| && wm.entries[j].0 == w
        ensures Get(wm, w) == Some(wm.entries[j].1)
      {
        if j > 0 {
          assert rest.entries[j - 1] == wm.entries[j];
        }
      }
      if forall j :: 0 <= j < |wm.entries| ==> wm.entries[j].0 != w {
        forall j | 0 <= j < |rest.entries|
          ensures rest.entries[j].0 != w
        {
          assert rest.entries[j] == wm.entries[j + 1];
        }
      }
    }
  }

  /** Entry `j` of the map is witness `j`. */
  predicate DenselyNumbered(wm: WitnessMap)
  {
    forall j :: 0 <= j < |wm.entries| ==> wm.entries[j].0.index == j
  }

  /** On a densely numbered map, `get` of witness `i` is the entry at position `i`, and nothing past the end. */
  lemma GetOnDenselyNumbered(wm: WitnessMap, position: U32)
    ensures DenselyNumbered(wm) ==>
              Get(wm, Witness(position)) == if position < |wm.entries| then Some(wm.entries[position].1) else None
  {
    if DenselyNumbered(wm) {
      GetFindsEntry(wm, Witness(position));
    }
  }

  // ---------------------------------------------------------------------
  // ACIR expressions and their value.

  datatype MulTerm = MulTerm(coeff: FieldElement, left: Witness, right: Witness)
  datatype LinearTerm = LinearTerm(coeff: FieldElement, w: Witness)

  /** `Σ mul_terms + Σ linear_combinations + q_c`. */
  datatype Expression = Expression(mulTerms: seq<MulTerm>, linearCombinations: seq<LinearTerm>, qC: FieldElement)

  /** The value of a witness: the one stored under it, zero when absent. */
  function WitnessValue(wm: WitnessMap, w: Witness): Fe
  {
    ValueOrZero(Get(wm, w))
  }

  function MulSum(wm: WitnessMap, terms: seq<MulTerm>): Fe
  {
    if terms == [] then 0
    else Add(Mul(Mul(terms[0].coeff, WitnessValue(wm, terms[0].left)), WitnessValue(wm, terms[0].right)),
             MulSum(wm, terms[1..]))
  }

  function LinearSum(wm: WitnessMap, terms: seq<LinearTerm>): Fe
  {
    if terms == [] then 0
    else Add(Mul(terms[0].coeff, WitnessValue(wm, terms[0].w)), LinearSum(wm, terms[1..]))
  }

  /** The value of an expression under the witness values; the opcode asks for it to be zero. */
  function ExpressionValue(wm: WitnessMap, e: Expression): Fe
  {
    Add(Add(MulSum(wm, e.mulTerms), LinearSum(wm, e.linearCombinations)), e.qC)
  }

  /** The upstream compiler never uses witness 0: it is the "unassigned" wire. */
  predicate NoWitnessZero(e: Expression)
  {
    && (forall m :: m in e.mulTerms ==> m.left.index != 0 && m.right.index != 0)
    && (forall t :: t in e.linearCombinations ==> t.w.index != 0)
  }

  // ---------------------------------------------------------------------
  // The staging record.

  /** `NoirConstraint`: selectors and three wires; wire 0 means "unassigned". */
  datatype NoirConstraint = NoirConstraint(a: I32, b: I32, c: I32,
                                           qm: FieldElement, ql: FieldElement, qr: FieldElement,
                                           qo: FieldElement, qc: FieldElement)

  /** `NoirConstraint::default()`. */
  const DefaultConstraint: NoirConstraint := NoirConstraint(0, 0, 0, 0, 0, 0, 0, 0)

  /**
   * `set_linear_term`: a witness already on a wire adds its coefficient to
   * that wire's selector; otherwise it takes the first free wire of
   * `(a, ql), (b, qr), (c, qo)`. With all three taken it fails.
   */
  function SetLinearTerm(cs: NoirConstraint, x: FieldElement, wire: I32): Option<NoirConstraint>
  {
    if cs.a != 0 && cs.a == wire then Some(cs.(ql := Add(cs.ql, x)))
    else if cs.b != 0 && cs.b == wire then Some(cs.(qr := Add(cs.qr, x)))
    else if cs.c != 0 && cs.c == wire then Some(cs.(qo := Add(cs.qo, x)))
    else if cs.a == 0 then Some(cs.(a := wire, ql := Add(cs.ql, x)))
    else if cs.b == 0 then Some(cs.(b := wire, qr := Add(cs.qr, x)))
    else if cs.c == 0 then Some(cs.(c := wire, qo := Add(cs.qo, x)))
    else None
  }

  /** The record after the multiplication step: only the first multiplication term is read. */
  function StageMul(e: Expression): NoirConstraint
  {
    if e.mulTerms == [] then DefaultConstraint
    else DefaultConstraint.(qm := e.mulTerms[0].coeff,
                            a := AsI32(e.mulTerms[0].left.index),
                            b := AsI32(e.mulTerms[0].right.index))
  }

  /** `set_linear_term` applied to each linear term in list order, stopping at the first failure. */
  function StageLinear(cs: NoirConstraint, terms: seq<LinearTerm>): Option<NoirConstraint>
    decreases |terms|
  {
    if terms == [] then Some(cs)
    else
      match SetLinearTerm(cs, terms[0].coeff, AsI32(terms[0].w.index))
      case None => None
      case Some(next) => StageLinear(next, terms[1..])
  }

  /** The staged record: multiplication term, then linear terms, then `qc`. */
  function Stage(e: Expression): Option<NoirConstraint>
  {
    match StageLinear(StageMul(e), e.linearCombinations)
    case None => None
    case Some(cs) => Some(cs.(qc := e.qC))
  }

  // ---------------------------------------------------------------------
  // The emitted main-gate row.

  datatype MainGateColumn = A | B | C | D | E

  /** `Term::Assigned`: a cell assigned in a main-gate column, with its coefficient. */
  datatype Term = Term(column: MainGateColumn, value: Fe, coeff: Fe)

  /**
   * What is handed to `MainGate::apply`: the terms, the constant, and
   * `CombineToNextScaleMul(next, mul)` as `nextCoeff` and `mulCoeff`.
   */
  datatype MainGateRow = MainGateRow(terms: seq<Term>, constant: Fe, nextCoeff: Fe, mulCoeff: Fe)

  /** The value in a column of the row's terms, zero when none. */
  function ColumnValue(terms: seq<Term>, column: MainGateColumn): Fe
  {
    if terms == [] then 0
    else if terms[0].column == column then terms[0].value
    else ColumnValue(terms[1..], column)
  }

  function TermSum(terms: seq<Term>): Fe
  {
    if terms == [] then 0 else Add(Mul(terms[0].coeff, terms[0].value), TermSum(terms[1..]))
  }

  /**
   * The main-gate equation of the row, with `next` the value of column E on
   * the following row: `Σ coeff·value + mul·a·b + constant + nextCoeff·next`.
   */
  function MainGateValue(row: MainGateRow, next: Fe): Fe
  {
    Add(Add(Add(TermSum(row.terms),
                Mul(Mul(row.mulCoeff, ColumnValue(row.terms, A)), ColumnValue(row.terms, B))),
            row.constant),
        Mul(row.nextCoeff, next))
  }

  /** The value the translator assigns for a wire of the staged record: the value at that position. */
  function WireValue(wm: WitnessMap, wire: I32): Fe
  {
    NoirFieldToHalo2Field(ValueOrZero(GetIndex(wm, AsU32(wire))))
  }

  /** The value stored under the witness a wire names, zero when absent. */
  function KeyedWireValue(wm: WitnessMap, wire: I32): Fe
  {
    NoirFieldToHalo2Field(ValueOrZero(Get(wm, Witness(AsU32(wire)))))
  }

  /** The five terms, constant and combination of a row, given the values of wires `a, b, c`. */
  function RowFrom(cs: NoirConstraint, va: Fe, vb: Fe, vc: Fe): MainGateRow
  {
    MainGateRow([Term(A, va, NoirFieldToHalo2Field(cs.ql)),
                 Term(B, vb, NoirFieldToHalo2Field(cs.qr)),
                 Term(C, vc, NoirFieldToHalo2Field(cs.qo)),
                 Term(D, 0, 0),
                 Term(E, 0, 0)],
                NoirFieldToHalo2Field(cs.qc), 0, NoirFieldToHalo2Field(cs.qm))
  }

  /** The row `add_arithmetic_constrains` emits for a staged record: wires read by position. */
  function EmittedRow(wm: WitnessMap, cs: NoirConstraint): MainGateRow
  {
    RowFrom(cs, WireValue(wm, cs.a), WireValue(wm, cs.b), WireValue(wm, cs.c))
  }

  /** The row with each wire read under the witness it names. */
  function KeyedRow(wm: WitnessMap, cs: NoirConstraint): MainGateRow
  {
    RowFrom(cs, KeyedWireValue(wm, cs.a), KeyedWireValue(wm, cs.b), KeyedWireValue(wm, cs.c))
  }

  datatype TranslationError = TooManyLinearTerms

  /** What `add_arithmetic_constrains` produces for an expression. */
  function ArithmeticRow(wm: WitnessMap, e: Expression): Result<MainGateRow, TranslationError>
  {
    match Stage(e)
    case None => Err(TooManyLinearTerms)
    case Some(cs) => Ok(EmittedRow(wm, cs))
  }

  /** The translation with the wires read by witness rather than by position. */
  function KeyedArithmeticRow(wm: WitnessMap, e: Expression): Result<MainGateRow, TranslationError>
  {
    match Stage(e)
    case None => Err(TooManyLinearTerms)
    case Some(cs) => Ok(KeyedRow(wm, cs))
  }

  /**
   * `add_arithmetic_constrains`: stage the record field by field, fold in
   * the linear terms, look the three wires up, and build the five terms.
   */
  method AddArithmeticConstrains(witnessValues: WitnessMap, gate: Expression)
    returns (r: Result<MainGateRow, TranslationError>)
    ensures r == ArithmeticRow(witnessValues, gate)
  {
    var noirCs := DefaultConstraint;
    if gate.mulTerms != [] {
      var mulTerm := gate.mulTerms[0];
      noirCs := noirCs.(qm := mulTerm.coeff);
      noirCs := noirCs.(a := AsI32(mulTerm.left.index));
      noirCs := noirCs.(b := AsI32(mulTerm.right.index));
    }

    var i := 0;
    while i < |gate.linearCombinations|
      invariant 0 <= i <= |gate.linearCombinations|
      invariant StageLinear(noirCs, gate.linearCombinations[i..]) == StageLinear(StageMul(gate), gate.linearCombinations)
    {
      var term := gate.linearCombinations[i];
      assert gate.linearCombinations[i..][1..] == gate.linearCombinations[i + 1..];
      var staged := SetLinearTerm(noirCs, term.coeff, AsI32(term.w.index));
      if staged.None? {
        assert gate.linearCombinations[i..][0] == term;
        assert Stage(gate).None?;
        return Err(TooManyLinearTerms);
      }
      noirCs := staged.value;
      i := i + 1;
    }
    assert gate.linearCombinations[i..] == [];

    noirCs := noirCs.(qc := gate.qC);
    assert Stage(gate) == Some(noirCs);

    var a := NoirFieldToHalo2Field(ValueOrZero(GetIndex(witnessValues, AsU32(noirCs.a))));
    var b := NoirFieldToHalo2Field(ValueOrZero(GetIndex(witnessValues, AsU32(noirCs.b))));
    var c := NoirFieldToHalo2Field(ValueOrZero(GetIndex(witnessValues, AsU32(noirCs.c))));
    var qm := NoirFieldToHalo2Field(noirCs.qm);
    var ql := NoirFieldToHalo2Field(noirCs.ql);
    var qr := NoirFieldToHalo2Field(noirCs.qr);
    var qo := NoirFieldToHalo2Field(noirCs.qo);
    var qc := NoirFieldToHalo2Field(noirCs.qc);

    var terms: seq<Term> := [];
    terms := terms + [Term(A, a, ql)];
    terms := terms + [Term(B, b, qr)];
    terms := terms + [Term(C, c, qo)];
    terms := terms + [Term(D, 0, 0)];
    terms := terms + [Term(E, 0, 0)];
    assert terms == EmittedRow(witnessValues, noirCs).terms;

    r := Ok(MainGateRow(terms, qc, 0, qm));
  }

  // ---------------------------------------------------------------------
  // What the staged record and the row mean.

  /** A free wire carries a zero selector. */
  predicate FreeWiresSilent(cs: NoirConstraint)
  {
    && (cs.a == 0 ==> cs.ql == 0)
    && (cs.b == 0 ==> cs.qr == 0)
    && (cs.c == 0 ==> cs.qo == 0)
  }

  /** `ql·a + qr·b + qo·c` for given wire values. */
  function LinearPart(cs: NoirConstraint, va: Fe, vb: Fe, vc: Fe): Fe
  {
    Add(Mul(cs.ql, va), Add(Mul(cs.qr, vb), Mul(cs.qo, vc)))
  }

  /** The linear part of a staged record, each wire read under the witness it names. */
  function WireSum(wm: WitnessMap, cs: NoirConstraint): Fe
  {
    LinearPart(cs, KeyedWireValue(wm, cs.a), KeyedWireValue(wm, cs.b), KeyedWireValue(wm, cs.c))
  }

  /**
   * Folding in one linear term with a nonzero witness adds `x·w` to the linear
   * part, puts the witness on a wire, keeps every wire already taken and
   * leaves `qm` and `qc` alone.
   */
  lemma SetLinearTermAdds(wm: WitnessMap, cs: NoirConstraint, x: FieldElement, w: Witness)
    requires FreeWiresSilent(cs) && w.index != 0
    requires SetLinearTerm(cs, x, AsI32(w.index)).Some?
    ensures var next := SetLinearTerm(cs, x, AsI32(w.index)).value;
      && WireSum(wm, next) == Add(WireSum(wm, cs), Mul(x, WitnessValue(wm, w)))
      && FreeWiresSilent(next)
      && next.qm == cs.qm && next.qc == cs.qc
      && (cs.a != 0 ==> next.a == cs.a) && (cs.b != 0 ==> next.b == cs.b) && (cs.c != 0 ==> next.c == cs.c)
      && AsI32(w.index) in {next.a, next.b, next.c}
  {
    var wire := AsI32(w.index);
    var next := SetLinearTerm(cs, x, wire).value;
    var va, vb, vc := KeyedWireValue(wm, cs.a), KeyedWireValue(wm, cs.b), KeyedWireValue(wm, cs.c);
    var vw := WitnessValue(wm, w);
    assert KeyedWireValue(wm, wire) == vw;
    var X, Y, Z, T := Mul(cs.ql, va), Mul(cs.qr, vb), Mul(cs.qo, vc), Mul(x, vw);
    if cs.a != 0 && cs.a == wire {
      Distrib(cs.ql, x, va);
      AddAssoc(X, T, Add(Y, Z));
      AddComm(T, Add(Y, Z));
      AddAssoc(X, Add(Y, Z), T);
    } else if cs.b != 0 && cs.b == wire {
      Distrib(cs.qr, x, vb);
      AddAssoc(Y, T, Z);
      AddComm(T, Z);
      AddAssoc(Y, Z, T);
      AddAssoc(X, Add(Y, Z), T);
    } else if cs.c != 0 && cs.c == wire {
      Distrib(cs.qo, x, vc);
      AddAssoc(Y, Z, T);
      AddAssoc(X, Add(Y, Z), T);
    } else if cs.a == 0 {
      MulZeroOne(va);
      AddComm(T, Add(Y, Z));
    } else if cs.b == 0 {
      MulZeroOne(vb);
      AddComm(T, Z);
      AddAssoc(X, Z, T);
    } else {
      MulZeroOne(vc);
      AddAssoc(X, Y, T);
    }
  }

  /**
   * Folding in a list of linear terms with nonzero witnesses adds their sum
   * to the linear part and puts every one of their witnesses on a wire.
   */
  lemma {:induction false} StageLinearAdds(wm: WitnessMap, cs: NoirConstraint, terms: seq<LinearTerm>)
    requires FreeWiresSilent(cs)
    requires forall t :: t in terms ==> t.w.index != 0
    requires StageLinear(cs, terms).Some?
    decreases |terms|
    ensures var r := StageLinear(cs, terms).value;
      && WireSum(wm, r) == Add(WireSum(wm, cs), LinearSum(wm, terms))
      && FreeWiresSilent(r)
      && r.qm == cs.qm && r.qc == cs.qc
      && (cs.a != 0 ==> r.a == cs.a) && (cs.b != 0 ==> r.b == cs.b) && (cs.c != 0 ==> r.c == cs.c)
      && forall t :: t in terms ==> AsI32(t.w.index) in {r.a, r.b, r.c}
  {
    if terms != [] {
      var t := terms[0];
      SetLinearTermAdds(wm, cs, t.coeff, t.w);
      var next := SetLinearTerm(cs, t.coeff, AsI32(t.w.index)).value;
      assert forall u :: u in terms[1..] ==> u in terms;
      StageLinearAdds(wm, next, terms[1..]);
      var r := StageLinear(cs, terms).value;
      assert r == StageLinear(next, terms[1..]).value;
      AddAssoc(WireSum(wm, cs), Mul(t.coeff, WitnessValue(wm, t.w)), LinearSum(wm, terms[1..]));
      forall u | u in terms
        ensures AsI32(u.w.index) in {r.a, r.b, r.c}
      {
        if u != t {
          assert u in terms[1..];
        }
      }
    }
  }

  /** A row's terms read back: columns A and B hold wires `a` and `b`, D and E are zero with zero coefficient. */
  lemma RowFromReads(cs: NoirConstraint, va: Fe, vb: Fe, vc: Fe)
    ensures ColumnValue(RowFrom(cs, va, vb, vc).terms, A) == va
    ensures ColumnValue(RowFrom(cs, va, vb, vc).terms, B) == vb
    ensures TermSum(RowFrom(cs, va, vb, vc).terms) == LinearPart(cs, va, vb, vc)
  {
    var terms := RowFrom(cs, va, vb, vc).terms;
    assert terms[1..][0] == terms[1];
    assert ColumnValue(terms, B) == ColumnValue(terms[1..], B);
    var X, Y, Z := Mul(cs.ql, va), Mul(cs.qr, vb), Mul(cs.qo, vc);
    MulZeroOne(0);
    assert TermSum(terms[4..]) == 0;
    assert TermSum(terms[3..]) == 0;
    assert TermSum(terms[2..]) == Z;
    assert TermSum(terms[1..]) == Add(Y, Z);
  }

  /**
   * The row is the expression, once each wire is read under its witness: on
   * any witness map, when the expression has at most one multiplication term
   * and no witness 0 and the translation succeeds, the main-gate equation of
   * the row equals the expression's value, whatever the next row holds. So
   * the row is satisfied exactly when the opcode is.
   */
  lemma KeyedArithmeticRowIsExpression(wm: WitnessMap, e: Expression, next: Fe)
    requires |e.mulTerms| <= 1 && NoWitnessZero(e)
    requires KeyedArithmeticRow(wm, e).Ok?
    ensures MainGateValue(KeyedArithmeticRow(wm, e).value, next) == ExpressionValue(wm, e)
    ensures MainGateValue(KeyedArithmeticRow(wm, e).value, next) == 0 <==> ExpressionValue(wm, e) == 0
  {
    var cs0 := StageMul(e);
    StageLinearAdds(wm, cs0, e.linearCombinations);
    var staged := StageLinear(cs0, e.linearCombinations).value;
    var cs := staged.(qc := e.qC);
    var va, vb, vc := KeyedWireValue(wm, cs.a), KeyedWireValue(wm, cs.b), KeyedWireValue(wm, cs.c);
    assert KeyedArithmeticRow(wm, e).value == RowFrom(cs, va, vb, vc);
    RowFromReads(cs, va, vb, vc);
    MulZeroOne(KeyedWireValue(wm, cs0.a));
    MulZeroOne(KeyedWireValue(wm, cs0.b));
    MulZeroOne(KeyedWireValue(wm, cs0.c));
    assert WireSum(wm, cs0) == 0;
    var lin := LinearSum(wm, e.linearCombinations);
    assert WireSum(wm, cs) == lin;
    var product := Mul(Mul(cs.qm, va), vb);
    if e.mulTerms == [] {
      MulZeroOne(va);
      MulZeroOne(vb);
      assert product == 0 == MulSum(wm, e.mulTerms);
    } else {
      var m := e.mulTerms[0];
      assert m in e.mulTerms;
      assert va == WitnessValue(wm, m.left);
      assert vb == WitnessValue(wm, m.right);
      assert e.mulTerms[1..] == [];
      assert product == MulSum(wm, e.mulTerms);
    }
    MulZeroOne(next);
    AddComm(lin, product);
  }

  /** On a densely numbered map, reading a wire by position and by witness agree, so the two rows are one. */
  lemma PositionalIsKeyedWhenDense(wm: WitnessMap, e: Expression)
    requires DenselyNumbered(wm)
    ensures ArithmeticRow(wm, e) == KeyedArithmeticRow(wm, e)
  {
    forall wire: I32
      ensures WireValue(wm, wire) == KeyedWireValue(wm, wire)
    {
      var position := AsU32(wire);
      assert GetIndex(wm, position) == Get(wm, Witness(position));
    }
  }

  /**
   * The row `add_arithmetic_constrains` emits is the expression on a densely
   * numbered witness map, with the same conditions as the keyed row.
   */
  lemma ArithmeticRowIsExpression(wm: WitnessMap, e: Expression, next: Fe)
    requires DenselyNumbered(wm)
    requires |e.mulTerms| <= 1 && NoWitnessZero(e)
    requires ArithmeticRow(wm, e).Ok?
    ensures MainGateValue(ArithmeticRow(wm, e).value, next) == ExpressionValue(wm, e)
    ensures MainGateValue(ArithmeticRow(wm, e).value, next) == 0 <==> ExpressionValue(wm, e) == 0
  {
    PositionalIsKeyedWhenDense(wm, e);
    KeyedArithmeticRowIsExpression(wm, e, next);
  }

  /** The upstream compiler reserves witness 0: no entry of the map is witness 0. */
  predicate ReservesWitnessZero(wm: WitnessMap)
  {
    forall j :: 0 <= j < |wm.entries| ==> wm.entries[j].0.index != 0
  }

  /** A densely numbered map must hold witness 0 first, so one that reserves it is empty. */
  lemma DenseReservedMapIsEmpty(wm: WitnessMap)
    ensures DenselyNumbered(wm) && ReservesWitnessZero(wm) <==> wm.entries == []
  {
    if wm.entries != [] && DenselyNumbered(wm) {
      assert wm.entries[0].0.index == 0;
    }
  }

  /**
   * Off a densely numbered map the positional reads take another witness's
   * value: with witness 1 stored at position 0, the expression `1·w1` has
   * value 5, yet its row reads wire `a` at position 1 (absent, so 0) and holds.
   */
  lemma PositionalReadsNeedDenseNumbering()
    ensures var wm := WitnessMap([(Witness(1), 5)]);
            var e := Expression([], [LinearTerm(1, Witness(1))], 0);
            && ArithmeticRow(wm, e).Ok?
            && MainGateValue(ArithmeticRow(wm, e).value, 0) == 0
            && ExpressionValue(wm, e) == 5
  {
    var wm := WitnessMap([(Witness(1), 5)]);
    var e := Expression([], [LinearTerm(1, Witness(1))], 0);
    var staged := SetLinearTerm(DefaultConstraint, 1, 1).value;
    assert staged == DefaultConstraint.(a := 1, ql := 1);
    assert e.linearCombinations[1..] == [];
    assert Stage(e) == Some(staged);
    assert WireValue(wm, 1) == 0;
    assert WireValue(wm, 0) == 5;
    RowFromReads(staged, 0, 5, 5);
    MulZeroOne(5);
    MulZeroOne(0);
    assert LinearPart(staged, 0, 5, 5) == 0;
    assert Get(wm, Witness(1)) == Some(5);
    assert LinearSum(wm, e.linearCombinations) == 5;
  }

  /**
   * The addition circuit `w1 + w2 - w3` over the map `w1 = 3, w2 = 4, w3 = 7`,
   * numbered from 1 as the upstream compiler numbers witnesses: the opcode
   * holds, the keyed row holds, but the emitted row reads positions 1, 2, 3,
   * that is 4, 7 and nothing, and its equation is 11.
   */
  lemma AddCircuitMisread()
    ensures var wm := WitnessMap([(Witness(1), 3), (Witness(2), 4), (Witness(3), 7)]);
            var e := Expression([], [LinearTerm(1, Witness(1)), LinearTerm(1, Witness(2)), LinearTerm(P - 1, Witness(3))], 0);
            && ReservesWitnessZero(wm) && UniqueKeys(wm)
            && ExpressionValue(wm, e) == 0
            && ArithmeticRow(wm, e).Ok? && KeyedArithmeticRow(wm, e).Ok?
            && MainGateValue(ArithmeticRow(wm, e).value, 0) == 11
            && MainGateValue(KeyedArithmeticRow(wm, e).value, 0) == 0
  {
    var wm := WitnessMap([(Witness(1), 3), (Witness(2), 4), (Witness(3), 7)]);
    var e := Expression([], [LinearTerm(1, Witness(1)), LinearTerm(1, Witness(2)), LinearTerm(P - 1, Witness(3))], 0);
    var minusOne: Fe := P - 1;
    var lc := e.linearCombinations;
    assert lc[1..][1..] == [lc[2]] && lc[1..][1..][1..] == [];
    var cs1 := DefaultConstraint.(a := 1, ql := 1);
    var cs2 := cs1.(b := 2, qr := 1);
    var cs := cs2.(c := 3, qo := minusOne);
    assert SetLinearTerm(DefaultConstraint, 1, 1) == Some(cs1);
    assert SetLinearTerm(cs1, 1, 2) == Some(cs2);
    assert SetLinearTerm(cs2, minusOne, 3) == Some(cs);
    assert StageLinear(cs, lc[1..][1..][1..]) == Some(cs);
    assert StageLinear(cs2, lc[1..][1..]) == Some(cs);
    assert StageLinear(cs1, lc[1..]) == Some(cs);
    assert Stage(e) == Some(cs);
    assert Mul(minusOne, 7) == P - 7 by {
      assert minusOne * 7 == 6 * P + (P - 7);
      DivModUnique(minusOne * 7, 6, P - 7);
    }
    assert Mul(minusOne, 0) == 0;
    MulZeroOne(3);
    MulZeroOne(4);
    MulZeroOne(7);
    MulZeroOne(0);
    assert WireValue(wm, 1) == 4 && WireValue(wm, 2) == 7 && WireValue(wm, 3) == 0;
    RowFromReads(cs, 4, 7, 0);
    assert LinearPart(cs, 4, 7, 0) == 11;
    assert Get(wm, Witness(1)) == Some(3);
    assert Get(wm, Witness(2)) == Some(4);
    assert Get(wm, Witness(3)) == Some(7);
    assert LinearSum(wm, lc[2..]) == P - 7;
    assert LinearSum(wm, lc) == 0;
    RowFromReads(cs, 3, 4, 7);
    assert LinearPart(cs, 3, 4, 7) == 0;
  }

  /** The nonzero wires of a record. */
  function TakenWires(cs: NoirConstraint): set<I32>
  {
    (if cs.a != 0 then {cs.a} else {}) + (if cs.b != 0 then {cs.b} else {}) + (if cs.c != 0 then {cs.c} else {})
  }

  /** The witnesses named by linear terms, as wires. */
  function LinearWires(terms: seq<LinearTerm>): set<I32>
    decreases |terms|
  {
    if terms == [] then {} else {AsI32(terms[0].w.index)} + LinearWires(terms[1..])
  }

  /** The witnesses of the linear terms that are not yet on a wire of the record. */
  function NewWires(cs: NoirConstraint, terms: seq<LinearTerm>): set<I32>
  {
    LinearWires(terms) - TakenWires(cs)
  }

  /**
   * One fold of a nonzero witness: one already on a wire changes no wire; a
   * new one takes a free wire; a new one with no free wire fails.
   */
  lemma SetLinearTermWires(cs: NoirConstraint, x: FieldElement, w: I32)
    requires w != 0
    ensures w in TakenWires(cs) ==>
              && SetLinearTerm(cs, x, w).Some?
              && TakenWires(SetLinearTerm(cs, x, w).value) == TakenWires(cs)
              && FreeWires(SetLinearTerm(cs, x, w).value) == FreeWires(cs)
    ensures w !in TakenWires(cs) && FreeWires(cs) > 0 ==>
              && SetLinearTerm(cs, x, w).Some?
              && TakenWires(SetLinearTerm(cs, x, w).value) == TakenWires(cs) + {w}
              && FreeWires(SetLinearTerm(cs, x, w).value) + 1 == FreeWires(cs)
    ensures w !in TakenWires(cs) && FreeWires(cs) == 0 ==> SetLinearTerm(cs, x, w).None?
  {
    if w in TakenWires(cs) {
    } else if cs.a == 0 {
      assert TakenWires(cs.(a := w, ql := Add(cs.ql, x))) == TakenWires(cs) + {w};
    } else if cs.b == 0 {
      assert TakenWires(cs.(b := w, qr := Add(cs.qr, x))) == TakenWires(cs) + {w};
    } else if cs.c == 0 {
      assert TakenWires(cs.(c := w, qo := Add(cs.qo, x))) == TakenWires(cs) + {w};
    }
  }

  lemma NewWiresKnown(later: set<I32>, taken: set<I32>, w: I32)
    requires w in taken
    ensures ({w} + later) - taken == later - taken
  {
  }

  lemma NewWiresFresh(later: set<I32>, taken: set<I32>, w: I32)
    requires w !in taken
    ensures |({w} + later) - taken| == |later - (taken + {w})| + 1
  {
    assert ({w} + later) - taken == (later - (taken + {w})) + {w};
  }

  /**
   * Folding in linear terms with nonzero witnesses succeeds exactly when they
   * bring no more new witnesses than there are free wires.
   */
  lemma {:induction false} StageLinearExact(cs: NoirConstraint, terms: seq<LinearTerm>)
    requires forall t :: t in terms ==> t.w.index != 0
    ensures StageLinear(cs, terms).Some? <==> |NewWires(cs, terms)| <= FreeWires(cs)
    decreases |terms|
  {
    if terms != [] {
      var t := terms[0];
      var w := AsI32(t.w.index);
      assert t in terms;
      var rest := terms[1..];
      assert forall u :: u in rest ==> u in terms;
      assert LinearWires(terms) == {w} + LinearWires(rest);
      var staged := SetLinearTerm(cs, t.coeff, w);
      SetLinearTermWires(cs, t.coeff, w);
      assert StageLinear(cs, terms) == if staged.None? then None else StageLinear(staged.value, rest);
      if w in TakenWires(cs) {
        var next := staged.value;
        NewWiresKnown(LinearWires(rest), TakenWires(cs), w);
        StageLinearExact(next, rest);
      } else if FreeWires(cs) > 0 {
        var next := staged.value;
        NewWiresFresh(LinearWires(rest), TakenWires(cs), w);
        StageLinearExact(next, rest);
      } else {
        assert w in NewWires(cs, terms);
      }
    }
  }

  /**
   * Translation fails exactly when the linear terms bring more new witnesses
   * than there are free wires: with no multiplication term, when they name
   * more than three distinct witnesses; with one, when more than one of
   * them differs from both factors.
   */
  lemma ArithmeticRowFailsExactly(wm: WitnessMap, e: Expression)
    requires NoWitnessZero(e)
    ensures ArithmeticRow(wm, e).Err? <==> |NewWires(StageMul(e), e.linearCombinations)| > FreeWires(StageMul(e))
    ensures e.mulTerms == [] ==> (ArithmeticRow(wm, e).Err? <==> |LinearWires(e.linearCombinations)| > 3)
    ensures e.mulTerms != [] ==>
              (ArithmeticRow(wm, e).Err? <==>
               |LinearWires(e.linearCombinations) - {AsI32(e.mulTerms[0].left.index), AsI32(e.mulTerms[0].right.index)}| > 1)
  {
    var cs0 := StageMul(e);
    StageLinearExact(cs0, e.linearCombinations);
    if e.mulTerms == [] {
      assert TakenWires(cs0) == {};
      assert NewWires(cs0, e.linearCombinations) == LinearWires(e.linearCombinations);
    } else {
      var m := e.mulTerms[0];
      assert m in e.mulTerms;
      assert TakenWires(cs0) == {AsI32(m.left.index), AsI32(m.right.index)};
      assert FreeWires(cs0) == 1;
    }
  }

  /**
   * Translation cannot fail while the wires suffice: with no witness 0,
   * at most three linear terms when there is no multiplication term, and at
   * most one when there is.
   */
  lemma ArithmeticRowWithinCapacity(wm: WitnessMap, e: Expression)
    requires NoWitnessZero(e)
    requires if e.mulTerms == [] then |e.linearCombinations| <= 3 else |e.linearCombinations| <= 1
    ensures ArithmeticRow(wm, e).Ok?
  {
    StageLinearFits(StageMul(e), e.linearCombinations);
  }

  /** The number of free wires of a record. */
  function FreeWires(cs: NoirConstraint): nat
  {
    (if cs.a == 0 then 1 else 0) + (if cs.b == 0 then 1 else 0) + (if cs.c == 0 then 1 else 0)
  }

  lemma {:induction false} StageLinearFits(cs: NoirConstraint, terms: seq<LinearTerm>)
    requires |terms| <= FreeWires(cs)
    ensures StageLinear(cs, terms).Some?
    decreases |terms|
  {
    if terms != [] {
      var next := SetLinearTerm(cs, terms[0].coeff, AsI32(terms[0].w.index));
      assert next.Some?;
      assert FreeWires(next.value) + 1 >= FreeWires(cs);
      StageLinearFits(next.value, terms[1..]);
    }
  }

  /** Staging reads the first multiplication term only: the rest change nothing. */
  lemma ExtraMulTermsIgnored(wm: WitnessMap, e: Expression)
    requires |e.mulTerms| >= 1
    ensures ArithmeticRow(wm, e) == ArithmeticRow(wm, e.(mulTerms := e.mulTerms[..1]))
  {
  }

  /**
   * What the staged record holds: `qm` and the wires `a, b` of the first
   * multiplication term (the default zeros without one), and `qc = q_c`.
   */
  lemma StagedRecord(e: Expression)
    requires NoWitnessZero(e)
    requires Stage(e).Some?
    ensures e.mulTerms == [] ==> Stage(e).value.qm == 0
    ensures e.mulTerms != [] ==> Stage(e).value.qm == e.mulTerms[0].coeff
    ensures e.mulTerms != [] ==> Stage(e).value.a == AsI32(e.mulTerms[0].left.index)
    ensures e.mulTerms != [] ==> Stage(e).value.b == AsI32(e.mulTerms[0].right.index)
    ensures Stage(e).value.qc == e.qC
    ensures forall t :: t in e.linearCombinations ==>
              AsI32(t.w.index) in {Stage(e).value.a, Stage(e).value.b, Stage(e).value.c}
  {
    var wm := WitnessMap([]);
    StageLinearAdds(wm, StageMul(e), e.linearCombinations);
    if e.mulTerms != [] {
      assert e.mulTerms[0] in e.mulTerms;
    }
  }

  // ---------------------------------------------------------------------
  // Range constraint and ECDSA signature.

  /** What `add_range_constrain` hands to `RangeChip::assign`. */
  datatype RangeRequest = RangeRequest(value: Fe, limbBitLen: nat, bitLen: nat)

  /**
   * `add_range_constrain`: the witness's value, read by witness rather than
   * by position and zero when absent, with 8-bit limbs and `num_bits` in all.
   */
  function AddRangeConstrain(witnessValues: WitnessMap, w: Witness, numBits: U32): (req: RangeRequest)
    ensures req.limbBitLen == 8 && req.bitLen == numBits
  {
    RangeRequest(NoirFieldToHalo2Field(ValueOrZero(Get(witnessValues, w))), 8, numBits)
  }

  /** The range request carries the value stored under the witness wherever it sits, and 0 for an absent one. */
  lemma RangeReadsByWitness(witnessValues: WitnessMap, w: Witness, numBits: U32)
    requires UniqueKeys(witnessValues)
    ensures forall j :: 0 <= j < |witnessValues.entries| && witnessValues.entries[j].0 == w ==>
              AddRangeConstrain(witnessValues, w, numBits).value == witnessValues.entries[j].1
    ensures (forall j :: 0 <= j < |witnessValues.entries| ==> witnessValues.entries[j].0 != w) ==>
              AddRangeConstrain(witnessValues, w, numBits).value == 0
  {
    GetFindsEntry(witnessValues, w);
  }

  /**
   * The split in `_add_ecdsa_secp256k1_constrain`: `r` from `signature[..32]`
   * and `s` from `signature[32..]`; slicing a shorter signature panics.
   */
  function SplitSignature(signature: seq<Witness>): (r: Option<(seq<Witness>, seq<Witness>)>)
    ensures r.Some? <==> |signature| >= 32
    ensures r.Some? ==> |r.value.0| == 32 && r.value.0 + r.value.1 == signature
  {
    if |signature| < 32 then None else Some((signature[..32], signature[32..]))
  }
}
