/**
 * The dry-run assignment sink that sizes a circuit: it records, per column
 * class, the largest row offset that synthesis touches, and turns the
 * largest of those plus the blinding rows into the exponent `k` of the
 * circuit size `2^k`.
 *
 * Synthesis itself (the circuit's floor planner driving the sink) is not
 * modelled: it is replaced by the sequence of sink calls it makes.
 */
module DimensionMeasure {
  import opened Results
  import opened Bits
  import opened Columns

  /** The two backend adapters the crate can be built for; they differ in `assign_fixed`. */
  datatype Backend = PseHalo2 | AxiomHalo2

  /** The values of the three counters of a `DimensionMeasurement`. */
  datatype Counters = Counters(instance: U64, advice: U64, fixed: U64)

  const Zero: Counters := Counters(0, 0, 0)

  function Counter(c: Counters, cls: Any): U64
  {
    match cls
    case Instance => c.instance
    case Advice => c.advice
    case Fixed => c.fixed
  }

  function Max(a: U64, b: U64): (r: U64)
    ensures a <= r && b <= r && (r == a || r == b)
  {
    if a < b then b else a
  }

  /** What `update(column, offset)` does to the counters. */
  function Raise(c: Counters, cls: Any, offset: U64): (r: Counters)
    ensures Counter(r, cls) == Max(Counter(c, cls), offset)
    ensures forall other :: other != cls ==> Counter(r, other) == Counter(c, other)
  {
    match cls
    case Instance => c.(instance := Max(c.instance, offset))
    case Advice => c.(advice := Max(c.advice, offset))
    case Fixed => c.(fixed := Max(c.fixed, offset))
  }

  /**
   * One call of the `Assignment` interface on the sink. Offsets are `usize`
   * values of a 64-bit target, so `offset as u64` changes nothing.
   */
  datatype SinkCall =
    | EnterRegion
    | ExitRegion
    | GetChallenge
    | EnableSelector(offset: U64)
    | QueryInstance(offset: U64)
    | AnnotateColumn(column: Column)
    | AssignAdvice(column: Column, offset: U64)
    | AssignFixed(column: Column, offset: U64)
    | Copy(left: Column, leftRow: U64, right: Column, rightRow: U64)
    | FillFromRow(column: Column, offset: U64)
    | PushNamespace
    | PopNamespace

  /** The class whose counter `assign_fixed` raises: `Fixed` for pse, `Advice` for axiom. */
  function AssignFixedClass(backend: Backend): Any
  {
    match backend
    case PseHalo2 => Fixed
    case AxiomHalo2 => Advice
  }

  /** The effect of one sink call on the counters. */
  function Apply(c: Counters, call: SinkCall, backend: Backend): Counters
  {
    match call
    case EnableSelector(offset) => Raise(c, Fixed, offset)
    case QueryInstance(offset) => Raise(c, Instance, offset)
    case AssignAdvice(_, offset) => Raise(c, Advice, offset)
    case AssignFixed(_, offset) => Raise(c, AssignFixedClass(backend), offset)
    case Copy(left, leftRow, right, rightRow) => Raise(Raise(c, left.kind, leftRow), right.kind, rightRow)
    case FillFromRow(_, offset) => Raise(c, Fixed, offset)
    case _ => c
  }

  /** The counters after a sequence of sink calls. */
  function Replay(c: Counters, calls: seq<SinkCall>, backend: Backend): Counters
  {
    if calls == [] then c
    else Apply(Replay(c, calls[..|calls| - 1], backend), calls[|calls| - 1], backend)
  }

  /**
   * The (class, row) pairs a sink call reports, read off the sink interface:
   * the independent description the counters are checked against.
   */
  function Reports(call: SinkCall, backend: Backend): set<(Any, U64)>
  {
    match call
    case EnableSelector(offset) => {(Fixed, offset)}
    case QueryInstance(offset) => {(Instance, offset)}
    case AssignAdvice(_, offset) => {(Advice, offset)}
    case AssignFixed(_, offset) => {(AssignFixedClass(backend), offset)}
    case Copy(left, leftRow, right, rightRow) => {(left.kind, leftRow), (right.kind, rightRow)}
    case FillFromRow(_, offset) => {(Fixed, offset)}
    case _ => {}
  }

  /** Reported by some call of the sequence. */
  ghost predicate Reported(calls: seq<SinkCall>, backend: Backend, cls: Any, row: U64)
  {
    exists i :: 0 <= i < |calls| && (cls, row) in Reports(calls[i], backend)
  }

  /** One call raises each counter exactly to the largest row it reports for that class. */
  lemma ApplyRaisesToReports(c: Counters, call: SinkCall, backend: Backend, cls: Any)
    ensures Counter(c, cls) <= Counter(Apply(c, call, backend), cls)
    ensures forall row :: (cls, row) in Reports(call, backend) ==> row <= Counter(Apply(c, call, backend), cls)
    ensures Counter(Apply(c, call, backend), cls) == Counter(c, cls)
         || (cls, Counter(Apply(c, call, backend), cls)) in Reports(call, backend)
  {
    var after := Apply(c, call, backend);
    match call
    case EnableSelector(offset) => RaiseReaches(c, Fixed, offset, cls);
    case QueryInstance(offset) => RaiseReaches(c, Instance, offset, cls);
    case AssignAdvice(_, offset) => RaiseReaches(c, Advice, offset, cls);
    case AssignFixed(_, offset) => RaiseReaches(c, AssignFixedClass(backend), offset, cls);
    case Copy(left, leftRow, right, rightRow) => CopyReaches(c, left.kind, leftRow, right.kind, rightRow, cls);
    case FillFromRow(_, offset) => RaiseReaches(c, Fixed, offset, cls);
    case _ =>
      assert after == c;
  }

  /** A copy raises the left class to the left row, then the right class to the right row. */
  lemma CopyReaches(c: Counters, left: Any, leftRow: U64, right: Any, rightRow: U64, cls: Any)
    ensures var after := Raise(Raise(c, left, leftRow), right, rightRow);
      && Counter(c, cls) <= Counter(after, cls)
      && (left == cls ==> leftRow <= Counter(after, cls))
      && (right == cls ==> rightRow <= Counter(after, cls))
      && (Counter(after, cls) == Counter(c, cls)
          || (left == cls && Counter(after, cls) == leftRow)
          || (right == cls && Counter(after, cls) == rightRow))
  {
    RaiseReaches(c, left, leftRow, cls);
    RaiseReaches(Raise(c, left, leftRow), right, rightRow, cls);
  }

  /** `Raise` lifts only the raised class, and lifts it exactly to the offset or not at all. */
  lemma RaiseReaches(c: Counters, raised: Any, offset: U64, cls: Any)
    ensures Counter(c, cls) <= Counter(Raise(c, raised, offset), cls)
    ensures raised == cls ==> offset <= Counter(Raise(c, raised, offset), cls)
    ensures Counter(Raise(c, raised, offset), cls) == Counter(c, cls)
         || (raised == cls && Counter(Raise(c, raised, offset), cls) == offset)
  {
  }

  /**
   * After any sequence of calls from the zero state, each counter is the
   * largest row reported for its class, or 0 when none was reported.
   */
  lemma {:induction false} ReplayIsLargestReport(calls: seq<SinkCall>, backend: Backend, cls: Any)
    ensures forall row: U64 :: Reported(calls, backend, cls, row) ==> row <= Counter(Replay(Zero, calls, backend), cls)
    ensures Counter(Replay(Zero, calls, backend), cls) == 0
         || Reported(calls, backend, cls, Counter(Replay(Zero, calls, backend), cls))
  {
    if calls != [] {
      var init, last := calls[..|calls| - 1], calls[|calls| - 1];
      ReplayIsLargestReport(init, backend, cls);
      var before := Replay(Zero, init, backend);
      ApplyRaisesToReports(before, last, backend, cls);
      var after := Replay(Zero, calls, backend);
      forall row: U64 | Reported(calls, backend, cls, row)
        ensures row <= Counter(after, cls)
      {
        var i :| 0 <= i < |calls| && (cls, row) in Reports(calls[i], backend);
        if i < |calls| - 1 {
          assert init[i] == calls[i];
          assert Reported(init, backend, cls, row);
        }
      }
      if Counter(after, cls) != Counter(before, cls) {
        assert (cls, Counter(after, cls)) in Reports(calls[|calls| - 1], backend);
      } else if Counter(before, cls) != 0 {
        var i :| 0 <= i < |init| && (cls, Counter(before, cls)) in Reports(init[i], backend);
        assert calls[i] == init[i];
      }
    }
  }

  lemma {:induction false} ReplayAppend(c: Counters, xs: seq<SinkCall>, ys: seq<SinkCall>, backend: Backend)
    ensures Replay(c, xs + ys, backend) == Replay(Replay(c, xs, backend), ys, backend)
  {
    if ys == [] {
      assert xs + ys == xs;
    } else {
      assert (xs + ys)[..|xs + ys| - 1] == xs + ys[..|ys| - 1];
      ReplayAppend(c, xs, ys[..|ys| - 1], backend);
    }
  }

  lemma {:induction false} ReplayGrows(c: Counters, calls: seq<SinkCall>, backend: Backend, cls: Any)
    ensures Counter(c, cls) <= Counter(Replay(c, calls, backend), cls)
  {
    if calls != [] {
      ReplayGrows(c, calls[..|calls| - 1], backend, cls);
      ApplyRaisesToReports(Replay(c, calls[..|calls| - 1], backend), calls[|calls| - 1], backend, cls);
    }
  }

  /** Counters never decrease: a longer run of calls never leaves a counter lower. */
  lemma CountersNeverDecrease(c: Counters, calls: seq<SinkCall>, i: nat, j: nat, backend: Backend, cls: Any)
    requires i <= j <= |calls|
    ensures Counter(Replay(c, calls[..i], backend), cls) <= Counter(Replay(c, calls[..j], backend), cls)
  {
    assert calls[..j] == calls[..i] + calls[i..j];
    ReplayAppend(c, calls[..i], calls[i..j], backend);
    ReplayGrows(Replay(c, calls[..i], backend), calls[i..j], backend, cls);
  }

  /** The measurement sink: three interior-mutable `u64` counters. */
  class DimensionMeasurement {
    var instance: U64
    var advice: U64
    var fixed: U64

    function Snapshot(): Counters
      reads this
    {
      Counters(instance, advice, fixed)
    }

    /** `DimensionMeasurement::default()`: every counter starts at 0. */
    constructor ()
      ensures Snapshot() == Zero
    {
      instance, advice, fixed := 0, 0, 0;
    }

    /** `update`: raise the counter of `column`'s class to `offset` if that is larger. */
    method Update(column: Any, offset: U64)
      modifies this
      ensures Snapshot() == Raise(old(Snapshot()), column, offset)
      ensures Counter(Snapshot(), column) == Max(Counter(old(Snapshot()), column), offset)
      ensures forall other :: other != column ==> Counter(Snapshot(), other) == Counter(old(Snapshot()), other)
    {
      match column
      case Instance =>
        if offset > instance {
          instance := offset;
        }
      case Advice =>
        if offset > advice {
          advice := offset;
        }
      case Fixed =>
        if offset > fixed {
          fixed := offset;
        }
    }

    method EnterRegion()
      modifies this
      ensures Snapshot() == old(Snapshot())
    {
    }

    method ExitRegion()
      modifies this
      ensures Snapshot() == old(Snapshot())
    {
    }

    /** `get_challenge`: the sink knows no values. */
    method GetChallenge() returns (value: Option<nat>)
      ensures value == None
    {
      value := None;
    }

    /** `enable_selector`: a selector is a fixed column. */
    method EnableSelector(offset: U64)
      modifies this
      ensures Snapshot() == Raise(old(Snapshot()), Fixed, offset)
    {
      Update(Fixed, offset);
    }

    /** `query_instance`: raises the instance counter; the value is unknown. */
    method QueryInstance(offset: U64) returns (value: Option<nat>)
      modifies this
      ensures Snapshot() == Raise(old(Snapshot()), Instance, offset)
      ensures value == None
    {
      Update(Instance, offset);
      value := None;
    }

    method AnnotateColumn(column: Column)
      modifies this
      ensures Snapshot() == old(Snapshot())
    {
    }

    /** `assign_advice`, the same in both adapters. */
    method AssignAdvice(column: Column, offset: U64)
      modifies this
      ensures Snapshot() == Raise(old(Snapshot()), Advice, offset)
    {
      Update(Advice, offset);
    }

    /** `assign_fixed`: the pse adapter raises the fixed counter, the axiom adapter the advice counter. */
    method AssignFixed(backend: Backend, column: Column, offset: U64)
      modifies this
      ensures backend == PseHalo2 ==> Snapshot() == Raise(old(Snapshot()), Fixed, offset)
      ensures backend == AxiomHalo2 ==> Snapshot() == Raise(old(Snapshot()), Advice, offset)
    {
      match backend
      case PseHalo2 => Update(Fixed, offset);
      case AxiomHalo2 => Update(Advice, offset);
    }

    /** `copy`: raises the class of each endpoint to that endpoint's row, left first. */
    method Copy(left: Column, leftRow: U64, right: Column, rightRow: U64)
      modifies this
      ensures Snapshot() == Raise(Raise(old(Snapshot()), left.kind, leftRow), right.kind, rightRow)
    {
      Update(left.kind, leftRow);
      Update(right.kind, rightRow);
    }

    /** `fill_from_row`: fixed columns only. */
    method FillFromRow(column: Column, offset: U64)
      modifies this
      ensures Snapshot() == Raise(old(Snapshot()), Fixed, offset)
    {
      Update(Fixed, offset);
    }

    method PushNamespace()
      modifies this
      ensures Snapshot() == old(Snapshot())
    {
    }

    method PopNamespace()
      modifies this
      ensures Snapshot() == old(Snapshot())
    {
    }

    /** Dispatch of one sink call to the method of the same name. */
    method Handle(call: SinkCall, backend: Backend)
      modifies this
      ensures Snapshot() == Apply(old(Snapshot()), call, backend)
    {
      match call
      case EnterRegion => EnterRegion();
      case ExitRegion => ExitRegion();
      case GetChallenge => var _ := GetChallenge();
      case EnableSelector(offset) => EnableSelector(offset);
      case QueryInstance(offset) => var _ := QueryInstance(offset);
      case AnnotateColumn(column) => AnnotateColumn(column);
      case AssignAdvice(column, offset) => AssignAdvice(column, offset);
      case AssignFixed(column, offset) => AssignFixed(backend, column, offset);
      case Copy(left, leftRow, right, rightRow) => Copy(left, leftRow, right, rightRow);
      case FillFromRow(column, offset) => FillFromRow(column, offset);
      case PushNamespace => PushNamespace();
      case PopNamespace => PopNamespace();
    }
  }

  /** The outcome of the circuit's synthesis against a sink: the calls it made, and its error if it failed. */
  datatype Synthesis = Synthesis(calls: seq<SinkCall>, failure: Option<SynthesisError>)

  /** An error raised by synthesis (halo2's `plonk::Error`), carried through unchanged. */
  datatype SynthesisError = SynthesisError(code: nat)

  /** The size requirements of a circuit. Each counter is a largest offset, not a row count. */
  datatype Dimension = Dimension(blindingFactor: U64, instance: U64, advice: U64, fixed: U64)

  /**
   * `DimensionMeasurement::measure`: run synthesis against a fresh sink and
   * collect its counters with the constraint system's blinding factor.
   */
  method Measure(run: Synthesis, backend: Backend, blindingFactor: U64) returns (r: Result<Dimension, SynthesisError>)
    ensures run.failure.Some? ==> r == Err(run.failure.value)
    ensures run.failure.None? ==> r.Ok?
    ensures r.Ok? ==> r.value.blindingFactor == blindingFactor
    ensures r.Ok? ==> Counters(r.value.instance, r.value.advice, r.value.fixed) == Replay(Zero, run.calls, backend)
  {
    var measurement := new DimensionMeasurement();
    var i := 0;
    while i < |run.calls|
      invariant 0 <= i <= |run.calls|
      invariant measurement.Snapshot() == Replay(Zero, run.calls[..i], backend)
    {
      measurement.Handle(run.calls[i], backend);
      assert run.calls[..i + 1][..i] == run.calls[..i];
      i := i + 1;
    }
    assert run.calls[..i] == run.calls;
    if run.failure.Some? {
      return Err(run.failure.value);
    }
    r := Ok(Dimension(blindingFactor, measurement.instance, measurement.advice, measurement.fixed));
  }

  /** How `k` fails in a debug build: the `u64` addition or `next_power_of_two` overflows. */
  datatype KPanic = AddOverflow | PowerOfTwoOverflow

  /** The rows to accommodate: the largest counter plus the blinding rows, without wrap-around. */
  function RequiredRows(d: Dimension): nat
  {
    Max(Max(d.instance, d.advice), d.fixed) + d.blindingFactor
  }

  /** `Dimension::k`: `64 - (max + blinding).next_power_of_two().leading_zeros() - 1`. */
  function K(d: Dimension): (r: Result<nat, KPanic>)
    ensures r == Err(AddOverflow) <==> RequiredRows(d) >= U64_LIMIT
    ensures r.Err? <==> RequiredRows(d) > Pow2(63)
  {
    Pow2Of64();
    var largest := Max(Max(d.instance, d.advice), d.fixed);
    if largest + d.blindingFactor >= U64_LIMIT then Err(AddOverflow)
    else
      match NextPowerOfTwo(largest + d.blindingFactor)
      case None => Err(PowerOfTwoOverflow)
      case Some(p) => Ok(U64_BITS - LeadingZeros(p) - 1)
  }

  /**
   * Without overflow, `k` is the least exponent whose power of two covers
   * the required rows: `2^k` is `next_power_of_two` of them, and `k = 0`
   * when at most one row is required.
   */
  lemma KIsLeastCoveringExponent(d: Dimension)
    requires RequiredRows(d) <= Pow2(63)
    ensures K(d).Ok?
    ensures NextPowerOfTwo(RequiredRows(d)) == Some(Pow2(K(d).value))
    ensures Pow2(K(d).value) >= RequiredRows(d)
    ensures K(d).value >= 1 ==> Pow2(K(d).value - 1) < RequiredRows(d)
    ensures RequiredRows(d) <= 1 ==> K(d).value == 0
    ensures forall j: nat :: Pow2(j) >= RequiredRows(d) <==> j >= K(d).value
  {
    Pow2Of64();
    var s := RequiredRows(d);
    var p := NextPowerOfTwo(s).value;
    var k := K(d).value;
    if s <= 1 {
      assert p == 1 == Pow2(0);
      assert k == 0;
    } else {
      var b := BitLength(s - 1);
      assert p == Pow2(b);
      BitLengthOfPow2(b);
      assert k == b;
    }
    forall j: nat
      ensures Pow2(j) >= s <==> j >= k
    {
      if j >= k {
        Pow2Monotone(k, j);
      } else {
        Pow2Monotone(j, k - 1);
      }
    }
  }
}
