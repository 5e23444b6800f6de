/** The hardware configuration the optimizer reads: the basis gate set, the
    number of qubits and a duration per gate kind. */
module HardwareConfig {
  import opened Outcomes
  import opened Gates
  import opened Validation

  const DEFAULT_BASIS_GATES: set<string> := {"X", "Y", "Z", "CX"}

  /** The basis sets the constructor accepts. */
  const ACCEPTABLE_BASIS_GATES_LIST: set<set<string>> :=
    {DEFAULT_BASIS_GATES, {"X", "Z", "CX"}, {"Y", "Z", "CX"}}

  predicate AcceptableBasis(b: set<string>) {
    b in ACCEPTABLE_BASIS_GATES_LIST
  }

  /** Exactly three sets are accepted, {X, Y, CX} is not one of them, and
      every accepted set has Z, CX and one of X or Y. */
  lemma AcceptableBasisSets(b: set<string>)
    ensures AcceptableBasis(b) <==>
      b == {"X", "Y", "Z", "CX"} || b == {"X", "Z", "CX"} || b == {"Y", "Z", "CX"}
    ensures !AcceptableBasis({"X", "Y", "CX"})
    ensures AcceptableBasis(b) ==> "Z" in b && "CX" in b && ("X" in b || "Y" in b)
  {
    assert {"X", "Y", "CX"} != {"X", "Y", "Z", "CX"} by {
      assert "Z" !in {"X", "Y", "CX"};
    }
  }

  /** What `duration_of_one_qubit_gates` computes: the sum of the X, Y and Z
      lengths over the gates, or `ValueError` when the list holds a CX. */
  function Duration(gs: seq<Gate>, lx: int, ly: int, lz: int): (r: Result<int>)
    ensures r.Err? ==> r.error == ValueError
    decreases |gs|
  {
    if |gs| == 0 then Ok(0)
    else
      match Duration(gs[..|gs| - 1], lx, ly, lz)
      case Err(e) => Err(e)
      case Ok(d) =>
        match gs[|gs| - 1]
        case X(_, _) => Ok(d + lx)
        case Y(_, _) => Ok(d + ly)
        case Z(_, _) => Ok(d + lz)
        case CX(_, _) => Err(ValueError)
  }

  /** The duration is defined exactly when no gate is a CX. */
  lemma {:induction false} DurationFailsIffCX(gs: seq<Gate>, lx: int, ly: int, lz: int)
    ensures Duration(gs, lx, ly, lz).Err? <==> exists k :: 0 <= k < |gs| && gs[k].CX?
    decreases |gs|
  {
    if |gs| > 0 {
      var init := gs[..|gs| - 1];
      DurationFailsIffCX(init, lx, ly, lz);
      if exists k :: 0 <= k < |init| && init[k].CX? {
        var k :| 0 <= k < |init| && init[k].CX?;
        assert gs[k].CX?;
      }
      if exists k :: 0 <= k < |gs| && gs[k].CX? {
        var k :| 0 <= k < |gs| && gs[k].CX?;
        if k < |gs| - 1 {
          assert init[k].CX?;
        }
      }
    }
  }

  /** Durations add up over concatenation; the empty list takes no time. */
  lemma {:induction false} DurationAppend(a: seq<Gate>, b: seq<Gate>, lx: int, ly: int, lz: int)
    ensures Duration([], lx, ly, lz) == Ok(0)
    ensures Duration(a + b, lx, ly, lz) ==
      if Duration(a, lx, ly, lz).Ok? && Duration(b, lx, ly, lz).Ok?
      then Ok(Duration(a, lx, ly, lz).value + Duration(b, lx, ly, lz).value)
      else Err(ValueError)
    decreases |b|
  {
    if |b| == 0 {
      assert a + b == a;
    } else {
      var init := b[..|b| - 1];
      assert (a + b)[..|a + b| - 1] == a + init;
      assert (a + b)[|a + b| - 1] == b[|b| - 1];
      DurationAppend(a, init, lx, ly, lz);
    }
  }

  /** On positive lengths, a list without CX takes at least one unit of
      time per gate. */
  lemma {:induction false} DurationOfRotations(gs: seq<Gate>, lx: int, ly: int, lz: int)
    requires lx > 0 && ly > 0 && lz > 0 && AllRotations(gs)
    ensures Duration(gs, lx, ly, lz).Ok? && Duration(gs, lx, ly, lz).value >= |gs|
    decreases |gs|
  {
    if |gs| > 0 {
      DurationOfRotations(gs[..|gs| - 1], lx, ly, lz);
      assert gs[|gs| - 1].IsRotation();
    }
  }

  class HardwareConfiguration {
    var basisGates: set<string>
    var qubitNumber: int
    var xLength: int
    var yLength: int
    var zLength: int
    /** `length_cx` is stored without any check, so it may hold any value. */
    var cxLength: Value

    ghost predicate Valid()
      reads this
    {
      AcceptableBasis(basisGates) && xLength > 0 && yLength > 0 && zLength > 0
    }

    /** `HardwareConfiguration(qubit_number, basis_gates)` on an accepted
        basis set: the lengths start at 10, 10, 10 and 100. */
    constructor (qubitNumber: int, basisGates: set<string>)
      requires AcceptableBasis(basisGates)
      ensures Valid()
      ensures this.basisGates == basisGates && this.qubitNumber == qubitNumber
      ensures xLength == 10 && yLength == 10 && zLength == 10 && cxLength == Int(100)
    {
      this.basisGates := basisGates;
      this.qubitNumber := qubitNumber;
      xLength, yLength, zLength := 10, 10, 10;
      cxLength := Int(100);
    }

    /** The constructor with its check: `ValueError` unless the basis set
        (the default one when the argument is omitted) is acceptable. */
    static method Create(qubitNumber: int, basisGates: Option<set<string>>)
      returns (r: Result<HardwareConfiguration>)
      ensures var b := if basisGates.Some? then basisGates.value else DEFAULT_BASIS_GATES;
        && (r.Err? <==> !AcceptableBasis(b))
        && (r.Err? ==> r.error == ValueError)
        && (r.Ok? ==> fresh(r.value) && r.value.Valid() && r.value.basisGates == b
                      && r.value.qubitNumber == qubitNumber
                      && r.value.xLength == 10 && r.value.yLength == 10 && r.value.zLength == 10
                      && r.value.cxLength == Int(100))
    {
      var b := if basisGates.Some? then basisGates.value else DEFAULT_BASIS_GATES;
      if !AcceptableBasis(b) {
        return Err(ValueError);
      }
      var h := new HardwareConfiguration(qubitNumber, b);
      return Ok(h);
    }

    /** `validate_qubit_index`: passes exactly for an int in `[0, qubit_number)`. */
    method ValidateQubitIndex(qubitIndex: Value) returns (err: Option<Error>)
      ensures err.None? <==> qubitIndex.Int? && 0 <= qubitIndex.n < qubitNumber
      ensures err.Some? ==> err.value == ValueError
    {
      if qubitIndex.NonInt? || qubitIndex.n >= qubitNumber || qubitIndex.n < 0 {
        return Some(ValueError);
      }
      return None;
    }

    /** `duration_of_one_qubit_gates`: the loop accumulating the lengths. */
    method DurationOfOneQubitGates(gateList: seq<Gate>) returns (r: Result<int>)
      ensures r == Duration(gateList, xLength, yLength, zLength)
      ensures Valid() && AllRotations(gateList) ==> r.Ok? && r.value >= |gateList|
    {
      var duration := 0;
      for i := 0 to |gateList|
        invariant Duration(gateList[..i], xLength, yLength, zLength) == Ok(duration)
      {
        assert gateList[..i + 1][..i] == gateList[..i];
        match gateList[i]
        case X(_, _) => duration := duration + xLength;
        case Y(_, _) => duration := duration + yLength;
        case Z(_, _) => duration := duration + zLength;
        case CX(_, _) =>
          DurationAppend(gateList[..i + 1], gateList[i + 1..], xLength, yLength, zLength);
          assert gateList[..i + 1] + gateList[i + 1..] == gateList;
          return Err(ValueError);
      }
      assert gateList[..|gateList|] == gateList;
      if Valid() && AllRotations(gateList) {
        DurationOfRotations(gateList, xLength, yLength, zLength);
      }
      return Ok(duration);
    }

    /** The `length_x` setter; it changes nothing else. */
    method SetLengthX(length: Value) returns (err: Option<Error>)
      modifies this`xLength
      ensures err == LengthCheck(length)
      ensures xLength == if err.None? then length.n else old(xLength)
      ensures old(Valid()) ==> Valid()
    {
      err := LengthCheck(length);
      if err.None? {
        xLength := length.n;
      }
    }

    /** The `length_y` setter; it changes nothing else. */
    method SetLengthY(length: Value) returns (err: Option<Error>)
      modifies this`yLength
      ensures err == LengthCheck(length)
      ensures yLength == if err.None? then length.n else old(yLength)
      ensures old(Valid()) ==> Valid()
    {
      err := LengthCheck(length);
      if err.None? {
        yLength := length.n;
      }
    }

    /** The `length_z` setter; it changes nothing else. */
    method SetLengthZ(length: Value) returns (err: Option<Error>)
      modifies this`zLength
      ensures err == LengthCheck(length)
      ensures zLength == if err.None? then length.n else old(zLength)
      ensures old(Valid()) ==> Valid()
    {
      err := LengthCheck(length);
      if err.None? {
        zLength := length.n;
      }
    }

    /** The `length_cx` setter stores any value unchecked. */
    method SetLengthCx(value: Value)
      modifies this`cxLength
      ensures cxLength == value
    {
      cxLength := value;
    }
  }
}
