/** `QuantumHardware`: a second configuration class, with the basis set
    written with `CNOT` and a validating `basis_gates` setter. */
module Hardware {
  import opened Outcomes
  import opened Validation

  /** `list(range(n))`: the indexes `0 .. n - 1`, empty when `n <= 0`. */
  function Range(n: int): (r: seq<int>)
    ensures |r| == if n > 0 then n else 0
    ensures forall k :: 0 <= k < |r| ==> r[k] == k
  {
    if n <= 0 then [] else Range(n - 1) + [n - 1]
  }

  class QuantumHardware {
    var qubitNumber: int
    var qubitIndexes: seq<int>
    var basisGates: set<string>
    var xLength: int
    /** The value last stored by the `length_y` setter; the `length_y`
        getter never reads it. */
    var yLength: int
    /** The value last stored by the `length_z` setter; the `length_z`
        getter never reads it. */
    var zLength: int
    var cxLength: Value

    ghost predicate Valid()
      reads this
    {
      AcceptableCnotBasis(basisGates) && xLength > 0 && yLength > 0 && zLength > 0
    }

    /** What the setters' checks buy: on a valid object every length getter
        reports a positive length, and the basis holds `CNOT` and at least
        two of the rotation axes. */
    lemma ValidLengthsAndBasis()
      requires Valid()
      ensures LengthX() > 0 && LengthY() > 0 && LengthZ() > 0
      ensures "CNOT" in basisGates && |basisGates * {"X", "Y", "Z"}| >= 2
    {
      AcceptedCnotBasisShape(basisGates);
    }

    /** The `length_x` getter. */
    function LengthX(): int
      reads this
    {
      xLength
    }

    /** The `length_y` getter returns the X length. */
    function LengthY(): int
      reads this
    {
      xLength
    }

    /** The `length_z` getter returns the X length. */
    function LengthZ(): int
      reads this
    {
      xLength
    }

    /** `QuantumHardware(qubit_number, basis_gates)` on an accepted basis set. */
    constructor (qubitNumber: int, basisGates: set<string>)
      requires AcceptableCnotBasis(basisGates)
      ensures Valid()
      ensures this.qubitNumber == qubitNumber && this.basisGates == basisGates
      ensures qubitIndexes == Range(qubitNumber)
      ensures xLength == 10 && yLength == 10 && zLength == 10 && cxLength == Int(100)
    {
      this.qubitNumber := qubitNumber;
      qubitIndexes := Range(qubitNumber);
      this.basisGates := basisGates;
      xLength, yLength, zLength := 10, 10, 10;
      cxLength := Int(100);
    }

    /** The constructor with its check: `None` stands for {X, Y, Z, CNOT};
        any set the `basis_gates` setter refuses raises `ValueError`. */
    static method Create(qubitNumber: int, basisGates: Option<set<string>>)
      returns (r: Result<QuantumHardware>)
      ensures var b := if basisGates.Some? then basisGates.value else FULL_CNOT_BASIS;
        && (r.Err? <==> !AcceptableCnotBasis(b))
        && (r.Err? ==> r.error == ValueError)
        && (r.Ok? ==> fresh(r.value) && r.value.Valid() && r.value.basisGates == b
                      && r.value.qubitNumber == qubitNumber && r.value.qubitIndexes == Range(qubitNumber)
                      && r.value.LengthX() == 10 && r.value.LengthY() == 10 && r.value.LengthZ() == 10
                      && r.value.cxLength == Int(100))
    {
      var b := if basisGates.Some? then basisGates.value else FULL_CNOT_BASIS;
      if !AcceptableCnotBasis(b) {
        return Err(ValueError);
      }
      var h := new QuantumHardware(qubitNumber, b);
      return Ok(h);
    }

    /** The `basis_gates` setter: only the four CNOT sets are stored; any other
        set raises `ValueError` and leaves the stored set as it was. */
    method SetBasisGates(newBasisGates: set<string>) returns (err: Option<Error>)
      modifies this`basisGates
      ensures err.None? <==> AcceptableCnotBasis(newBasisGates)
      ensures err.Some? ==> err.value == ValueError
      ensures basisGates == if err.None? then newBasisGates else old(basisGates)
      ensures old(Valid()) ==> Valid()
    {
      if !AcceptableCnotBasis(newBasisGates) {
        return Some(ValueError);
      }
      basisGates := newBasisGates;
      return None;
    }

    /** The `length_x` setter; it is the only setter whose value the getters show. */
    method SetLengthX(length: Value) returns (err: Option<Error>)
      modifies this`xLength
      ensures err == LengthCheck(length)
      ensures LengthX() == if err.None? then length.n else old(LengthX())
      ensures LengthY() == LengthX() && LengthZ() == LengthX()
      ensures old(Valid()) ==> Valid()
    {
      err := LengthCheck(length);
      if err.None? {
        xLength := length.n;
      }
    }

    /** The `length_y` setter stores the value, yet what `length_y` reads
        does not change. */
    method SetLengthY(length: Value) returns (err: Option<Error>)
      modifies this`yLength
      ensures err == LengthCheck(length)
      ensures yLength == if err.None? then length.n else old(yLength)
      ensures LengthY() == old(LengthY())
      ensures old(Valid()) ==> Valid()
    {
      err := LengthCheck(length);
      if err.None? {
        yLength := length.n;
      }
    }

    /** The `length_z` setter stores the value, yet what `length_z` reads
        does not change. */
    method SetLengthZ(length: Value) returns (err: Option<Error>)
      modifies this`zLength
      ensures err == LengthCheck(length)
      ensures zLength == if err.None? then length.n else old(zLength)
      ensures LengthZ() == old(LengthZ())
      ensures old(Valid()) ==> Valid()
    {
      err := LengthCheck(length);
      if err.None? {
        zLength := length.n;
      }
    }

    /** The `length_cx` setter stores any value unchecked. */
    method SetLengthCx(value: Value)
      modifies this`cxLength
      ensures cxLength == value
    {
      cxLength := value;
    }
  }
}
