# A Dafny model of the halo2 backend's circuit sizing and gate translation

This project models three parts of a Noir-to-halo2 proving backend.

- **Dimension measurement.** `DimensionMeasurement` is a dry-run
  `Assignment` sink. Synthesis drives it, and it remembers the largest row
  offset touched in each column class: instance, advice and fixed.
  `Dimension::k` then turns the largest of those, plus the blinding rows,
  into the `k` of a `2^k`-row circuit. Both build variants of the sink are
  modelled (`pse_halo2` and `axiom_halo2`). They differ only in
  `assign_fixed`.
- **The standard PLONK chip.** This covers `PlonkConfig::configure`, with
  its single gate `a·sl + b·sr + a·b·sm + c·so + sc`. It also covers
  `StandardPlonk`'s `raw_multiply`, `raw_add`, `raw_poly` and `copy`, and
  the `PolyTriple` record they use. `PolyTriple::new`
  (`src/pse_halo2/halo2_plonk_api.rs:178-198`) is the datatype
  constructor `PlonkApi.PolyTriple`, which takes the same eight arguments
  in the same order. `PlonkApi.PolyRegionGate` shows how `raw_poly` uses
  each field.
- **ACIR translation.** `add_arithmetic_constrains` stages a
  `NoirConstraint` from an ACIR expression and emits one row of the
  five-column main gate. `add_range_constrain` requests a range check with
  8-bit limbs. The ECDSA opcode splits its signature into `r` and `s`.

Field elements are integers modulo the BN254 scalar-field prime
(`Field.P`). As a modelling choice, ACIR's `FieldElement` is taken to be
that same field, so `noir_field_to_halo2_field` is the identity on
canonical field elements (see "Left out"). The `u64`, `u32` and `i32`
values of the source are bounded integer types. Their operations are
written out: `next_power_of_two`, `leading_zeros`, and the `as i32` /
`as u32` bit reinterpretations. A debug-build overflow panic becomes an
error value.

The parts of the source that change state are modelled as classes with
`modifies` clauses:

- the sink's counters (`DimensionMeasure.DimensionMeasurement`);
- the constraint system being configured (`PlonkApi.ConstraintSystem`);
- the layouter that regions are assigned into (`PlonkApi.Layouter`).

Every such method is tied to a function of the old state: `Replay` of the
sink calls for the sink, and the `MultiplyRegion`, `AddRegion` and
`PolyRegion` assignments for the chip. The lemmas are proved about those
functions.

`add_arithmetic_constrains` is a method with a loop over the linear terms.
It is proved equal to `ArithmeticRow`, which reads each wire's value by
ordinal position in the witness map (`get_index`). After a successful
translation, the row's main-gate equation equals the ACIR expression,
where each witness reads the value stored under it, only under all of
these conditions (`ArithmeticRowIsExpression`):

- entry `j` of the map is witness `j`;
- the expression has at most one multiplication term;
- it names no witness 0.

Then the row holds exactly when the opcode does. That first condition is
narrow. The upstream compiler reserves witness 0, and
`DenseReservedMapIsEmpty` shows that a map meeting the condition without
holding witness 0 is empty. So no non-empty map the compiler produces
meets it. On such maps the translator reads, for every wire, the value of
a different witness (see "## Findings"). `KeyedArithmeticRow` is the same
translation with each wire read under the witness it names.
`KeyedArithmeticRowIsExpression` proves the expression theorem for it on
every witness map. `ArithmeticRowFailsExactly` gives the exact condition
under which translation fails.

Files:

- `results.dfy`: `Option` and `Result`.
- `field.dfy`: the prime field.
- `bits.dfy`: the `u64` primitives.
- `columns.dfy`: column kinds.
- `dimension_measure.dfy`: the measurement sink.
- `plonk_api.dfy`: the standard PLONK chip.
- `constrains.dfy`: the ACIR translation.

Where the code and its documentation disagree, the model follows the code:

- **`k` can be 0.** The documentation gives `k` a minimum of 1. The code
  computes `64 - next_power_of_two(S).leading_zeros() - 1`, which is 0 when
  `S <= 1`. `KIsLeastCoveringExponent` states that.
- **The counters hold the largest offset itself.** The documentation
  describes "the maximum row index (plus one)". `update` stores the offset
  and adds nothing.
- **Axiom `assign_fixed` raises the advice counter.** In the `axiom_halo2`
  variant `assign_fixed` calls `update(Any::advice(), row)`, so it raises
  the advice counter, not the fixed one (`AssignFixedClass`).
- **Extra multiplication terms are ignored.** An expression with several
  multiplication terms is translated from the first one only, and the
  others are dropped without an error (`ExtraMulTermsIgnored`).

## Model

| member | source | states |
|---|---|---|
| DimensionMeasure.Raise | src/dimension_measure.rs:64-73 | `update` raises the chosen class's counter to the larger of its value and the offset, and leaves the other two counters unchanged |
| DimensionMeasure.ApplyRaisesToReports | src/dimension_measure.rs:94-225 | one sink call never lowers a counter. Afterwards each counter is at least every row the call reports for its class, and it either keeps its old value or equals one of those rows |
| DimensionMeasure.ReplayIsLargestReport | src/dimension_measure.rs:63-73 | after any sequence of sink calls from a fresh sink, each counter is the largest row reported for its class, or 0 if none was reported |
| DimensionMeasure.ReplayAppend | src/dimension_measure.rs:94-225 | running two sequences of sink calls one after the other is the same as running their concatenation |
| DimensionMeasure.ReplayGrows | src/dimension_measure.rs:70-72 | a sequence of sink calls never lowers any counter |
| DimensionMeasure.CountersNeverDecrease | src/dimension_measure.rs:70-72 | the counters never decrease: a longer prefix of a run leaves every counter at least as high as a shorter one |
| DimensionMeasure.DimensionMeasurement.constructor | src/dimension_measure.rs:83 | a fresh sink (`Self::default()`) has all three counters at 0 |
| DimensionMeasure.DimensionMeasurement.Update | src/dimension_measure.rs:64-73 | the counter of the column's class becomes the maximum of itself and the offset, and nothing else changes |
| DimensionMeasure.DimensionMeasurement.EnterRegion | src/dimension_measure.rs:95-100 | entering a region changes no counter |
| DimensionMeasure.DimensionMeasurement.ExitRegion | src/dimension_measure.rs:102 | exiting a region changes no counter |
| DimensionMeasure.DimensionMeasurement.GetChallenge | src/dimension_measure.rs:104-106 | yields an unknown value and changes no counter |
| DimensionMeasure.DimensionMeasurement.EnableSelector | src/dimension_measure.rs:108-115 | enabling a selector raises the fixed counter to the offset |
| DimensionMeasure.DimensionMeasurement.QueryInstance | src/dimension_measure.rs:117-120 | raises the instance counter to the offset and yields an unknown value |
| DimensionMeasure.DimensionMeasurement.AnnotateColumn | src/dimension_measure.rs:122-128 | annotating a column changes no counter |
| DimensionMeasure.DimensionMeasurement.AssignAdvice | src/dimension_measure.rs:158-174 | raises the advice counter to the row, in both variants (the axiom one is at lines 130-139) |
| DimensionMeasure.DimensionMeasurement.AssignFixed | src/dimension_measure.rs:141-192 | raises the fixed counter under pse and the advice counter under axiom |
| DimensionMeasure.DimensionMeasurement.Copy | src/dimension_measure.rs:194-205 | raises the left column's class to the left row, then the right column's class to the right row. The axiom variant is the same (lines 146-156) |
| DimensionMeasure.DimensionMeasurement.FillFromRow | src/dimension_measure.rs:207-215 | raises the fixed counter to the offset |
| DimensionMeasure.DimensionMeasurement.PushNamespace | src/dimension_measure.rs:217-222 | changes no counter |
| DimensionMeasure.DimensionMeasurement.PopNamespace | src/dimension_measure.rs:224 | changes no counter |
| DimensionMeasure.DimensionMeasurement.Handle | src/dimension_measure.rs:94-225 | dispatching any sink call leaves the counters at `Apply` of the old counters and that call |
| DimensionMeasure.Measure | src/dimension_measure.rs:75-91 | a synthesis error is returned unchanged. Otherwise the dimension carries the blinding factor, and counters equal to replaying every sink call on a fresh sink |
| Bits.LeadingZeros | src/dimension_measure.rs:54 | `leading_zeros` of a `u64` is 64 minus its bit length, and at most 64 |
| Bits.NextPowerOfTwo | src/dimension_measure.rs:53 | defined exactly when `n <= 2^63`; then it is 1 for `n <= 1` and `2^bitlen(n-1)` otherwise, the least power of two `>= n` |
| DimensionMeasure.K | src/dimension_measure.rs:46-56 | `k` overflows the addition exactly when max+blinding reaches `2^64`, and panics in some way exactly when that sum exceeds `2^63` |
| DimensionMeasure.KIsLeastCoveringExponent | src/dimension_measure.rs:46-56 | without overflow, `2^k` is `next_power_of_two` of the required rows. `k` is the least exponent whose power of two covers them, for every `j`: `2^j >= S` iff `j >= k`. `k = 0` when `S <= 1` |
| PlonkApi.GatePolynomialIsGate | src/pse_halo2/halo2_plonk_api.rs:112-124 | the gate polynomial built by `configure`, evaluated on any row's cells, is `a·sl + b·sr + a·b·sm + c·so + sc` in the field |
| PlonkApi.GateValueIsIntegerPolynomial | src/pse_halo2/halo2_plonk_api.rs:123 | the field value of the gate is the integer polynomial reduced modulo P |
| PlonkApi.ConstraintSystem.AdviceColumn | src/pse_halo2/halo2_plonk_api.rs:98-100 | allocates the next advice column and changes nothing else |
| PlonkApi.ConstraintSystem.FixedColumn | src/pse_halo2/halo2_plonk_api.rs:106-110 | allocates the next fixed column and changes nothing else |
| PlonkApi.ConstraintSystem.EnableEquality | src/pse_halo2/halo2_plonk_api.rs:102-104 | adds the column to the permutation argument |
| PlonkApi.ConstraintSystem.CreateGate | src/pse_halo2/halo2_plonk_api.rs:112-124 | appends the named gate and changes nothing else |
| PlonkApi.Configure | src/pse_halo2/halo2_plonk_api.rs:97-136 | allocates three fresh advice columns `a, b, c` and five fresh fixed columns in the order `sm, sl, sr, so, sc`, all distinct. Only `a, b, c` are added to the permutation. Exactly one gate, "Combined add-mult", is appended, holding the gate polynomial |
| PlonkApi.Layouter.AssignAdvice | src/pse_halo2/halo2_plonk_api.rs:314-316 | records the assignment in the open region and returns the cell at (region index, column, offset) |
| PlonkApi.Layouter.AssignFixed | src/pse_halo2/halo2_plonk_api.rs:318-322 | records the fixed assignment in the open region |
| PlonkApi.Layouter.ConstrainEqual | src/pse_halo2/halo2_plonk_api.rs:336 | appends the pair of cells to the equality constraints |
| PlonkApi.Layouter.BeginRegion | src/pse_halo2/halo2_plonk_api.rs:310-312 | opens an empty region |
| PlonkApi.Layouter.EndRegion | src/pse_halo2/halo2_plonk_api.rs:325 | closes the open region onto the list of regions |
| PlonkApi.RowAtDistinct | src/pse_halo2/halo2_plonk_api.rs:229-254 | in a region whose assignments are to distinct columns, row 0 holds exactly the assigned columns with their values |
| PlonkApi.MultiplyRegionGate | src/pse_halo2/halo2_plonk_api.rs:229-254 | `raw_multiply` fills one row with `sl = 0, sr = 0, so = 1, sm = 1` and leaves `sc` unwritten. The gate there is `a·b + c`, and it is 0 iff `a·b + c ≡ 0 (mod P)` |
| PlonkApi.AddRegionGate | src/pse_halo2/halo2_plonk_api.rs:272-297 | `raw_add` fills one row with `sl = 1, sr = 1, so = 1, sm = 0` and leaves `sc` unwritten. The gate there is `a + b + c`, and it is 0 iff `a + b + c ≡ 0 (mod P)` |
| PlonkApi.PolyRegionGate | src/pse_halo2/halo2_plonk_api.rs:313-322 | `raw_poly` copies the triple field for field (`ql, qr, qo, qm, qc` to `sl, sr, so, sm, sc`; `a, b, c` to the advice columns). Its gate is `qm·a·b + ql·a + qr·b + qo·c + qc` reduced mod P |
| PlonkApi.CopyTwiceIsCopyOnce | src/pse_halo2/halo2_plonk_api.rs:336-337 | constraining the same pair twice gives the same equality relation as once, which is the old relation plus that pair |
| PlonkApi.StandardPlonk.constructor | src/pse_halo2/halo2_plonk_api.rs:207-212 | the chip keeps the configuration it is given |
| PlonkApi.StandardPlonk.RawMultiply | src/pse_halo2/halo2_plonk_api.rs:216-258 | appends exactly the `raw_multiply` region, adds no equality, and returns the cells of `a, b, c` at row 0 of that region |
| PlonkApi.StandardPlonk.RawAdd | src/pse_halo2/halo2_plonk_api.rs:259-301 | appends exactly the `raw_add` region, adds no equality, and returns the cells of `a, b, c` at row 0 of that region |
| PlonkApi.StandardPlonk.RawPoly | src/pse_halo2/halo2_plonk_api.rs:302-326 | appends exactly the `raw_poly` region of the triple, adds no equality, and returns the three advice cells |
| PlonkApi.StandardPlonk.Copy | src/pse_halo2/halo2_plonk_api.rs:327-340 | opens and closes an empty region and constrains the pair twice. The equality relation grows by exactly that pair |
| Constrains.AsI32 | src/pse_halo2/constrains.rs:50-54 | `as i32` on a witness index is undone by `as u32`, and gives 0 exactly for index 0 |
| Constrains.GetIndex | src/pse_halo2/constrains.rs:64-69 | `get_index` yields a value exactly for positions inside the map. On a map whose entry `j` is witness `j` it equals the keyed `get` of the witness with that index, including `None` past the end |
| Constrains.GetOnDenselyNumbered | src/pse_halo2/constrains.rs:143-148 | on a map whose entry `j` is witness `j`, keyed `get` of witness `i` is the entry at position `i`, and nothing past the end |
| Constrains.GetFindsEntry | src/pse_halo2/constrains.rs:143-148 | with unique witnesses, `get` finds an entry wherever it sits and yields nothing for an absent witness |
| Constrains.AddArithmeticConstrains | src/pse_halo2/constrains.rs:36-134 | the method emits exactly `ArithmeticRow`: the staged record's five terms with wires read by position, its `qc`, and `CombineToNextScaleMul(0, qm)`. A translation whose linear terms do not fit the wires fails; this is the model's stand-in for `set_linear_term` aborting (see "Left out") |
| Constrains.SetLinearTermAdds | src/pse_halo2/constrains.rs:57-59 | folding in one linear term with a nonzero witness adds `coeff·value` to `ql·a + qr·b + qo·c`. It puts the witness on a wire, keeps every taken wire and leaves `qm`, `qc` unchanged |
| Constrains.StageLinearAdds | src/pse_halo2/constrains.rs:57-59 | folding in all linear terms adds their sum to the linear part and puts every witness on one of `a, b, c` |
| Constrains.StageLinearFits | src/pse_halo2/constrains.rs:57-59 | folding in never fails while there are no more terms than free wires |
| Constrains.SetLinearTermWires | src/pse_halo2/constrains.rs:57-59 | one fold of a nonzero witness: a witness already on a wire changes no wire. A new one takes one free wire. A new one with no free wire fails |
| Constrains.StageLinearExact | src/pse_halo2/constrains.rs:57-59 | folding in linear terms with nonzero witnesses succeeds iff the distinct witnesses not yet on a wire are no more than the free wires |
| Constrains.ArithmeticRowFailsExactly | src/pse_halo2/constrains.rs:42-59 | translation fails iff the new linear witnesses outnumber the free wires. Without a multiplication term that means more than three distinct linear witnesses. With one, it means more than one linear witness differing from both factors |
| Constrains.ArithmeticRowWithinCapacity | src/pse_halo2/constrains.rs:42-59 | translation succeeds when the terms fit the wires: at most three linear terms without a multiplication term, at most one with it |
| Constrains.RowFromReads | src/pse_halo2/constrains.rs:102-115 | the emitted terms put wire `a` in column A and `b` in column B. Their weighted sum is `ql·a + qr·b + qo·c`, because D and E are zero with zero coefficients |
| Constrains.KeyedArithmeticRowIsExpression | src/pse_halo2/constrains.rs:42-127 | with wires read under the witness they name, on every witness map, with at most one multiplication term and no witness 0, a successful translation gives a row whose main-gate value equals the ACIR expression's value, whatever the next row holds. So the row holds iff the expression is zero |
| Constrains.PositionalIsKeyedWhenDense | src/pse_halo2/constrains.rs:64-83 | on a map whose entry `j` is witness `j`, the positional and the keyed translations are the same row |
| Constrains.ArithmeticRowIsExpression | src/pse_halo2/constrains.rs:42-127 | the expression theorem for the row as emitted, with wires read by position. It holds only for maps whose entry `j` is witness `j` |
| Constrains.DenseReservedMapIsEmpty | src/pse_halo2/constrains.rs:64-83 | a map whose entry `j` is witness `j` and that holds no witness 0 is the empty map, and only it |
| Constrains.PositionalReadsNeedDenseNumbering | src/pse_halo2/constrains.rs:64-83 | on a map holding witness 1 at position 0, the expression `1·w1` has value 5, yet it translates to a row whose main-gate value is 0: the positional reads take another position's value |
| Constrains.AddCircuitMisread | src/pse_halo2/constrains.rs:64-83 | on the map `w1 = 3, w2 = 4, w3 = 7` (unique keys, no witness 0), `w1 + w2 - w3` is 0 and its keyed row holds. The row as emitted reads 4, 7 and 0 and has main-gate value 11 |
| Constrains.ExtraMulTermsIgnored | src/pse_halo2/constrains.rs:44-55 | only the first multiplication term is read: dropping the others changes nothing |
| Constrains.StagedRecord | src/pse_halo2/constrains.rs:42-62 | the staged record holds the first multiplication term's coefficient and wires (zeros without one), `qc = q_c`, and every linear witness on one of its wires |
| Constrains.AddRangeConstrain | src/pse_halo2/constrains.rs:136-167 | the range request uses 8-bit limbs and `num_bits` in all |
| Constrains.RangeReadsByWitness | src/pse_halo2/constrains.rs:143-148 | the range request carries the value stored under the witness, wherever it sits in the map, and 0 for an absent witness |
| Constrains.SplitSignature | src/pse_halo2/constrains.rs:178-179 | the split exists exactly when the signature has at least 32 witnesses. `r` is its first 32 and `r ++ s` is the whole signature |

## Left out

- Key generation, proving and verification (`halo2_keygen`,
  `halo2_prove`, `halo2_verify`): these are calls into the proof system.
- The body of `_add_ecdsa_secp256k1_constrain` after the split: that is,
  the secp256k1 field conversions (`noir_field_to_secp255k1_fq_field` /
  `fp_field`, a macro that is not part of this model), point construction
  and the ECDSA chip. They belong to foreign chips.
- The internals of `MainGate::apply` and `RangeChip::assign`: the main
  gate enters the model only through its equation (`MainGateValue`), and
  the range chip only through the request it receives (`RangeRequest`).
- `set_linear_term`: its body is not part of the source files modelled
  here. `SetLinearTerm` follows the documented rule, as follows.
  - A witness already on a filled wire adds its coefficient to that wire's
    selector.
  - Otherwise the term takes the first free wire.
  - A term with no wire left fails.
  `add_arithmetic_constrains` calls it as a bare statement at
  `constrains.rs:58` and discards any result, so the function itself has
  no error return for this case. The model's `TooManyLinearTerms` stands
  for `set_linear_term` aborting. If it instead reports failure through a
  return value, the code emits the row without that term, and
  `ArithmeticRow` does not model that.
- `get_index`: its body is also not part of this model. The model reads
  it as "value at an ordinal position", as the call site's name suggests.
  `Constrains.GetIndex` shows that this coincides with keyed lookup on a
  map whose entry `j` is witness `j`.
- `noir_field_to_halo2_field`: the macro body is not part of this model.
  The model takes the conversion to be the identity on canonical BN254
  elements. Reduction of ACIR values from a different modulus into the
  target field is not modelled.
- The floor planner, `Circuit::configure` and `ConstraintSystem` synthesis
  in `measure`: the run is a parameter that carries the sequence of sink
  calls, plus an optional synthesis error. The blinding factor
  (`cs.blinding_factors()`) is also a parameter.
- The `Layouter`, `Region`, `Value` and `Assigned` plumbing: all values
  are known. The `value = Some(f())` closure trick in `raw_multiply` and
  `raw_add` reduces to passing the three values. Region assignment errors
  are not modelled.
- `Dimension::_advice_range`: it is unused.
- `usize` is taken to be 64 bits wide, so `offset as u64` and `num_bits as
  usize` change nothing.
- `Dimension::k` in a release build (where the overflows wrap instead of
  panicking): both overflow cases are errors in the model.
- Constrains.ArithmeticRowIsExpression: stated only for witness maps whose
  entry `j` is witness `j`, and only for expressions with at most one
  multiplication term and no witness 0.
  - With witness 0 reserved, no non-empty map the compiler produces meets
    the first condition (`Constrains.DenseReservedMapIsEmpty`). On those
    maps the positional reads take another witness's value for every
    wire (`Constrains.AddCircuitMisread`). The keyed theorem
    (`Constrains.KeyedArithmeticRowIsExpression`) needs no condition on
    the map.
  - With more multiplication terms, the code drops the extra products (see
    `Constrains.ExtraMulTermsIgnored`).
  - Witness 0 cannot be told apart from a free wire.

## Findings

| source | as written | input that shows it | evidently intended | confidence | as-written member | corrected member |
|---|---|---|---|---|---|---|
| src/pse_halo2/constrains.rs:64-83 | the wire values `a, b, c` are read with `get_index(wire)`, by ordinal position in the witness map | map `w1 = 3, w2 = 4, w3 = 7`, opcode `w1 + w2 - w3`: the opcode holds, but the emitted row reads 4, 7 and 0 and evaluates to 11 | each wire reads the value stored under the witness it names, as `add_range_constrain` does with `get` (lines 143-148). Then the row holds exactly when the opcode does, on every map | not executed; this depends on `get_index` looking up by position, which is its documented behaviour but whose body is not part of this model | Constrains.AddCircuitMisread | Constrains.KeyedArithmeticRowIsExpression |

`AddArithmeticConstrains` models the code as written. The staging lemmas
(`SetLinearTermAdds`, `StageLinearAdds`) and the expression theorem are
stated over keyed reads (`WireSum`, `KeyedArithmeticRow`).
`PositionalIsKeyedWhenDense` carries them over to the row as emitted.
