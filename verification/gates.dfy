/** The gate records: X, Y and Z rotations on one qubit, the two-qubit CX,
    and the general one-qubit unitary used between composition and
    decomposition. Angles are degrees, kept as exact reals. */
module Gates {
  import opened Outcomes
  import opened Text

  /** One gate; the constructor names are the classes of the source. The
      X, Y and Z constructors store their qubit index and angle as given. */
  datatype Gate =
    | X(qubitIndex: int, theta: real)
    | Y(qubitIndex: int, theta: real)
    | Z(qubitIndex: int, theta: real)
    | CX(index1: int, index2: int)
  {
    predicate IsRotation() {
      !CX?
    }
  }

  predicate AllRotations(gs: seq<Gate>) {
    forall k :: 0 <= k < |gs| ==> gs[k].IsRotation()
  }

  /** `OneQubitUnitary(index, theta, phi, lam)`; its fields are stored unchanged. */
  datatype OneQubitUnitary = OneQubitUnitary(index: int, theta: real, phi: real, lam: real)

  predicate ValidCXPair(index1: int, index2: int) {
    (index1 == 0 && index2 == 1) || (index1 == 1 && index2 == 0)
  }

  /** The `CX` constructor: only the index pairs (0, 1) and (1, 0) build a gate. */
  function MakeCX(index1: int, index2: int): (r: Result<Gate>)
    ensures r.Ok? <==> ValidCXPair(index1, index2)
    ensures r.Ok? ==> r.value.CX? && r.value.index1 == index1 && r.value.index2 == index2
    ensures r.Err? ==> r.error == TypeError
  {
    if index1 == 0 && index2 == 1 then Ok(CX(0, 1))
    else if index1 == 1 && index2 == 0 then Ok(CX(1, 0))
    else Err(TypeError)
  }

  type Matrix = seq<seq<int>>

  predicate IsSquare(m: Matrix, n: nat) {
    |m| == n && forall r :: 0 <= r < n ==> |m[r]| == n
  }

  /** The fixed 4x4 0/1 matrix of a CX gate (its `arr`). */
  function CXMatrix(index1: int, index2: int): (m: Matrix)
    requires ValidCXPair(index1, index2)
    ensures IsSquare(m, 4)
  {
    if index1 == 0 then
      [[1, 0, 0, 0],
       [0, 0, 0, 1],
       [0, 0, 1, 0],
       [0, 1, 0, 0]]
    else
      [[1, 0, 0, 0],
       [0, 1, 0, 0],
       [0, 0, 0, 1],
       [0, 0, 1, 0]]
  }

  /** The basis state that CX sends basis state `k` to: CX(0, 1) swaps
      states 1 and 3, CX(1, 0) swaps states 2 and 3. */
  function CXImage(index1: int, index2: int, k: nat): (j: nat)
    requires ValidCXPair(index1, index2) && k < 4
    ensures j < 4
  {
    if index1 == 0 then (if k == 1 then 3 else if k == 3 then 1 else k)
    else (if k == 2 then 3 else if k == 3 then 2 else k)
  }

  /** Each CX matrix is the 0/1 permutation matrix of `CXImage`, and that
      permutation undoes itself. */
  lemma CXMatrixIsPermutation(index1: int, index2: int)
    requires ValidCXPair(index1, index2)
    ensures IsSquare(CXMatrix(index1, index2), 4)
    ensures forall r, c :: 0 <= r < 4 && 0 <= c < 4 ==>
      CXMatrix(index1, index2)[r][c] == if r == CXImage(index1, index2, c) then 1 else 0
    ensures forall k :: 0 <= k < 4 ==> CXImage(index1, index2, CXImage(index1, index2, k)) == k
  {
  }

  /** The sum over `j < k` of `a[r][j] * b[j][c]`. */
  function Dot(a: Matrix, b: Matrix, n: nat, r: nat, c: nat, k: nat): int
    requires IsSquare(a, n) && IsSquare(b, n) && r < n && c < n && k <= n
  {
    if k == 0 then 0 else Dot(a, b, n, r, c, k - 1) + a[r][k - 1] * b[k - 1][c]
  }

  function MatMul(a: Matrix, b: Matrix, n: nat): (p: Matrix)
    requires IsSquare(a, n) && IsSquare(b, n)
    ensures IsSquare(p, n)
  {
    seq(n, r requires 0 <= r < n => seq(n, c requires 0 <= c < n => Dot(a, b, n, r, c, n)))
  }

  function Identity(n: nat): (m: Matrix)
    ensures IsSquare(m, n)
  {
    seq(n, r => seq(n, c => if r == c then 1 else 0))
  }

  /** Partial products of a CX matrix with itself: among the first `k`
      terms only `j == CXImage(c)` can contribute, and it contributes 1
      exactly when `r` is the image of that image. */
  lemma {:induction false} CXDot(index1: int, index2: int, r: nat, c: nat, k: nat)
    requires ValidCXPair(index1, index2) && r < 4 && c < 4 && k <= 4
    ensures IsSquare(CXMatrix(index1, index2), 4)
    ensures Dot(CXMatrix(index1, index2), CXMatrix(index1, index2), 4, r, c, k) ==
      if CXImage(index1, index2, c) < k && r == CXImage(index1, index2, CXImage(index1, index2, c)) then 1 else 0
  {
    CXMatrixIsPermutation(index1, index2);
    if k > 0 {
      CXDot(index1, index2, r, c, k - 1);
    }
  }

  /** Each CX matrix is its own inverse. */
  lemma CXSelfInverse(index1: int, index2: int)
    requires ValidCXPair(index1, index2)
    ensures IsSquare(CXMatrix(index1, index2), 4)
    ensures MatMul(CXMatrix(index1, index2), CXMatrix(index1, index2), 4) == Identity(4)
  {
    CXMatrixIsPermutation(index1, index2);
    var m := CXMatrix(index1, index2);
    var p := MatMul(m, m, 4);
    forall r, c | 0 <= r < 4 && 0 <= c < 4
      ensures p[r][c] == Identity(4)[r][c]
    {
      CXDot(index1, index2, r, c, 4);
    }
    forall r | 0 <= r < 4 ensures p[r] == Identity(4)[r] {
    }
  }

  /** The letter a gate's notation starts with. */
  function Letter(g: Gate): char {
    match g
    case X(_, _) => 'X'
    case Y(_, _) => 'Y'
    case Z(_, _) => 'Z'
    case CX(_, _) => 'C'
  }

  /** `to_sting_notation()`, which is also `__str__`: `X(i, θ)`, `Y(i, θ)`,
      `Z(i, θ)` or `CX(a, b)`. `showReal` is Python's rendering of a float. */
  function Notation(g: Gate, showReal: real -> string): (s: string)
    ensures |s| >= 6 && s[0] == Letter(g) && s[1] == (if g.CX? then 'X' else '(') && s[|s| - 1] == ')'
  {
    match g
    case X(i, t) => "X(" + IntToString(i) + ", " + showReal(t) + ")"
    case Y(i, t) => "Y(" + IntToString(i) + ", " + showReal(t) + ")"
    case Z(i, t) => "Z(" + IntToString(i) + ", " + showReal(t) + ")"
    case CX(a, b) => "CX(" + IntToString(a) + ", " + IntToString(b) + ")"
  }

  /** `OneQubitUnitary.to_sting_notation()`: `UOne(i, θ, φ, λ)`. */
  function UnitaryNotation(u: OneQubitUnitary, showReal: real -> string): (s: string)
    ensures |s| >= 7 && s[..5] == "UOne(" && s[|s| - 1] == ')'
  {
    "UOne(" + IntToString(u.index) + ", " + showReal(u.theta) + ", " + showReal(u.phi) + ", "
      + showReal(u.lam) + ")"
  }
}
