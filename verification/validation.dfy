/** Checks shared by the configuration classes: the validating length setters
    and the basis sets written with `CNOT`. */
module Validation {
  import opened Outcomes

  /** The check every `length_x`/`length_y`/`length_z` setter makes before
      storing: `TypeError` for a non-int, `ValueError` for a value <= 0,
      nothing otherwise. */
  function LengthCheck(v: Value): (r: Option<Error>)
    ensures r.None? <==> v.Int? && v.n > 0
    ensures v.NonInt? ==> r == Some(TypeError)
    ensures v.Int? && v.n <= 0 ==> r == Some(ValueError)
  {
    if v.NonInt? then Some(TypeError)
    else if v.n <= 0 then Some(ValueError)
    else None
  }

  const FULL_CNOT_BASIS: set<string> := {"X", "Y", "Z", "CNOT"}

  /** The basis sets that `QuantumHardware.basis_gates` and
      `QuantumCircuit.hardware_basis_gates` accept. */
  predicate AcceptableCnotBasis(b: set<string>) {
    b == FULL_CNOT_BASIS || b == {"X", "Y", "CNOT"} || b == {"X", "Z", "CNOT"} || b == {"Y", "Z", "CNOT"}
  }

  /** An accepted set always holds `CNOT` and exactly two or three of the
      rotation axes, and nothing else. */
  lemma AcceptedCnotBasisShape(b: set<string>)
    requires AcceptableCnotBasis(b)
    ensures "CNOT" in b && b <= FULL_CNOT_BASIS
    ensures |b * {"X", "Y", "Z"}| >= 2
  {
    if b == {"X", "Y", "CNOT"} {
      assert b * {"X", "Y", "Z"} == {"X", "Y"};
    } else if b == {"X", "Z", "CNOT"} {
      assert b * {"X", "Y", "Z"} == {"X", "Z"};
    } else if b == {"Y", "Z", "CNOT"} {
      assert b * {"X", "Y", "Z"} == {"Y", "Z"};
    } else {
      assert b * {"X", "Y", "Z"} == {"X", "Y", "Z"};
    }
  }
}
