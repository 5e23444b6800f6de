# optimal-quantum-circuit in Dafny

A model of the one-qubit gate optimizer of `optimal-quantum-circuit`, a small
Python library. The library keeps gate lists of X, Y and Z rotations
(angles in degrees) and two-qubit CX gates. It shrinks short windows of
rotations with a rule-based peephole rewriter. It renders a one-qubit
unitary, given by its Euler angles (theta, phi, lam), as a Z-Y-Z or a "Z-X-Z"
list. It then picks between the two renderings using the basis gates and
per-gate durations of a hardware configuration. Three configuration classes
hold the basis gate set and the gate lengths behind validating setters:
`HardwareConfiguration`, `QuantumHardware` and `QuantumCircuit`.
`QuantumCircuit` also offers `add`, a string parser `add_from_string` and
`__str__`.

Layout, one module per source file plus three shared ones:

- `outcomes.dfy` (`Outcomes`): `Option`, `Result` and the Python exception kinds the code raises. `Value` stands for an argument that may or may not be a Python `int`.
- `text.dfy` (`Text`): the string operations the parser and the printers use. These are `str.split(sep)` and its inverse `join`, `str.split()` on whitespace, `int()` of one digit, and `str()` of an integer.
- `validation.dfy` (`Validation`): the length check shared by every validating length setter, and the basis sets written with `CNOT`.
- `gates.dfy` (`Gates`): the gate records, the CX constructor and its matrices, and the notation `to_sting_notation`/`__str__`.
- `transformations.dfy` (`Transformations`): the ZXZ and ZYZ renderers.
- `hardware_configuration.dfy` (`HardwareConfig`): the constants, the duration sum and the class `HardwareConfiguration`.
- `hardware.dfy` (`Hardware`): the class `QuantumHardware`.
- `circuit.dfy` (`Circuit`): the piece parser of `add_from_string`, `__str__` and the class `QuantumCircuit`.
- `optimize_gates.dfy` (`OptimizeGates`): the peephole rewriter, the hardware selector and the tail of the one-qubit driver.

How the code is modelled:

- Raising an exception is an `Err` carrying the exception kind. A `None` return is an `Option`.
- Angles are exact `real`s. Python's `int()` on a float is `Trunc`, which truncates toward zero. Python's `% 360` floors, like Dafny's `%` by a positive number.
- The code calls some foreign routines: `float()` on a word, the rendering of a float by `str()`, and the numerical Euler-angle extraction. Each becomes a function parameter (`parseFloat`, `showReal`, `eulerAngles`).
- The gate classes `X`, `Y`, `Z`, `CX` (optimize_circuit/gates.py:17-109) and `OneQubitUnitary` (optimize_circuit/gates.py:115-131) are the datatypes `Gate` and `OneQubitUnitary`, whose constructors store their arguments as given. Only the CX constructor checks its arguments (`MakeCX`), and only CX's fixed matrix is modelled (`CXMatrix`).
- Fields the source updates in place are class fields with `modifies` frames. The loops in `duration_of_one_qubit_gates` and `add_from_string` are `for` loops proved against the functions `Duration` and `ParseGates`.

Where the description of the library and the code disagree, the model follows the code:

- `u_to_zxz_gates` emits a Y gate in the middle, not an X gate. So the selector never returns an X gate (`SelectorEmitsNoX`), even on a basis without Y.
- With both X and Y in the basis, the two renderings always take the same time. The tie goes to ZYZ, so the ZXZ rendering is never chosen (`FullBasisPicksZyz`).
- `add_from_string` builds gate objects, but `add` keeps only strings, so `gates` never changes (`QuantumCircuit.AddFromString`). The last piece keeps its closing parenthesis, so the text that `__str__` prints for a non-empty gate list never parses back (`OwnTextDoesNotParse`).
- The `length_y` and `length_z` getters of `QuantumHardware` and `QuantumCircuit` return the X length.
- A `Z` piece in `add_from_string` builds an X gate.
- The `QuantumCircuit` constructor's docstring promises an error for more than two qubits. The code makes no such check, and neither does the model.
- After two rotations collapse to nothing, `optimize_three_gate` hands a single rotation to `optimize_two_gate`. That raises `IndexError`: for example, X(180), X(180), Y(10) (`CollapseExample`).

## Model

| member | source | states |
|---|---|---|
| Text.Split | optimize_circuit/circuit.py:99 | `str.split(sep)` always returns at least one piece; its round trip with `join` is `JoinSplit`, and `SplitPiecesHaveNoSeparator` shows it cuts at every occurrence |
| Text.SplitPiecesHaveNoSeparator | optimize_circuit/circuit.py:99 | no piece of `split(sep)` contains `sep`; for a separator that cannot overlap itself, such as `"), "`, this and `JoinSplit` fix the pieces |
| Text.JoinSplit | optimize_circuit/circuit.py:99 | joining the pieces of `split(sep)` with `sep` gives back the original text |
| Text.Join | optimize_circuit/circuit.py:121 | `sep.join(xs)`; what it promises is stated by `JoinEnds` and `JoinSplit` |
| Text.JoinEnds | optimize_circuit/circuit.py:121 | the empty list joins to `""`; a join starts with the first element and ends with the last |
| Text.SplitLastKeepsEnd | optimize_circuit/circuit.py:99 | when the text does not end like the separator, the last piece of `split(sep)` is non-empty and ends with the text's last character |
| Text.LastWord | optimize_circuit/circuit.py:106 | `split()[-1]` raises `IndexError` exactly when the text is all whitespace; otherwise it is a non-empty word without whitespace, and it is the slice of the text that only whitespace follows and that whitespace or the start of the text precedes, i.e. the last maximal word |
| Text.IsSpace | optimize_circuit/circuit.py:106 | the characters below 128 that `split()` treats as whitespace: space, tab, newline, vertical tab, form feed, carriage return and the separators 0x1C to 0x1F |
| Text.TrailingWord | optimize_circuit/circuit.py:106 | the trailing run of non-whitespace is a suffix of the text, preceded by whitespace unless it is the whole text |
| Text.DigitValue | optimize_circuit/circuit.py:101-102 | `int()` of one character succeeds exactly on a decimal digit, giving a value in 0..9 that `DigitChar` renders back; any other character raises `ValueError` |
| Text.DigitChar | optimize_circuit/gates.py:112 | the digit rendered for 0..9 is the character whose offset from `'0'` is that value |
| Text.NatToString | optimize_circuit/gates.py:34 | `str()` of a natural number is a non-empty run of decimal digits with no leading zero from 10 on, a single digit below 10 |
| Text.NatToStringRoundTrip | optimize_circuit/gates.py:34 | reading the digits of `str(n)` back, most significant first, gives `n` |
| Text.IntToString | optimize_circuit/gates.py:34 | `str()` of an integer is `-` followed by the digits of its magnitude when it is negative, and the digits of the integer otherwise |
| Text.IntToStringRoundTrip | optimize_circuit/gates.py:34 | the digits after the optional sign of `str(i)` read back as the magnitude of `i` |
| Validation.LengthCheck | optimize_circuit/hardware_configuration.py:91-94 | a length passes exactly when it is an int above 0; a non-int raises `TypeError`, an int at or below 0 `ValueError` |
| Validation.AcceptedCnotBasisShape | optimize_circuit/hardware.py:77-80 | every accepted basis set contains `CNOT`, lies within {X, Y, Z, CNOT} and has at least two of the three rotation axes |
| Gates.MakeCX | optimize_circuit/gates.py:91-109 | a CX is built exactly for the index pairs (0, 1) and (1, 0), and it stores them; any other pair raises (`NotImplemented(...)` is not callable, so `TypeError`) |
| Gates.CXImage | optimize_circuit/gates.py:80-88 | CX sends every one of the four basis states to a basis state |
| Gates.CXMatrixIsPermutation | optimize_circuit/gates.py:93-102 | each CX matrix is the 4x4 0/1 permutation matrix that swaps states 1 and 3 for CX(0, 1), and states 2 and 3 for CX(1, 0); the permutation is its own inverse |
| Gates.CXMatrix | optimize_circuit/gates.py:93-102 | the `arr` of CX(0, 1) and of CX(1, 0), each a 4x4 matrix |
| Gates.CXDot | optimize_circuit/gates.py:93-102 | in the product of a CX matrix with itself, a partial row-by-column sum is 1 exactly when the permuted column has been reached and the row is the image of its image |
| Gates.CXSelfInverse | optimize_circuit/gates.py:80-88 | each CX matrix times itself is the 4x4 identity |
| Gates.Notation | optimize_circuit/gates.py:12-34 | `__str__` equals `to_sting_notation` and has the form `X(i, θ)`, `Y(i, θ)` or `Z(i, θ)` (lines 34, 53, 72), or `CX(a, b)` (line 112): the first letter names the class, then comes `(` (or `X(` for CX), and the text ends with `)` |
| Gates.UnitaryNotation | optimize_circuit/gates.py:133-134 | the unitary prints as `UOne(` … `)` |
| Transformations.ZyzGates | optimize_circuit/transformations.py:23-39 | at most three gates: `Z(lam)`, `Y(theta)` and `Z(phi)`, in that order, each emitted exactly when its angle is non-zero, with the angles copied and all gates on the unitary's qubit; no Y gate when theta is 0 |
| Transformations.ZxzGates | optimize_circuit/transformations.py:4-20 | the same positions and conditions, with `Z(lam - π/2)`, a Y (not X) gate `Y(theta)` and `Z(phi + π/2)` |
| Transformations.RenderingsHaveSameShape | optimize_circuit/transformations.py:11-39 | both renderings have the same length, and at every position the same gate class on the same qubit; the Y gates are equal, and the outer Z angles differ by exactly π/2 |
| HardwareConfig.AcceptableBasisSets | optimize_circuit/hardware_configuration.py:3-8 | exactly {X, Y, Z, CX}, {X, Z, CX} and {Y, Z, CX} are accepted, {X, Y, CX} is not, and every accepted set has Z, CX and X or Y |
| HardwareConfig.Duration | optimize_circuit/hardware_configuration.py:44-56 | the sum of the X, Y and Z lengths over the list; the only failure is `ValueError` |
| HardwareConfig.DurationFailsIffCX | optimize_circuit/hardware_configuration.py:52-54 | the duration raises exactly when some gate in the list is a CX |
| HardwareConfig.DurationAppend | optimize_circuit/hardware_configuration.py:44-56 | the empty list takes 0, and the duration of a concatenation is the sum of the durations, failing when either part fails |
| HardwareConfig.HardwareConfiguration.constructor | optimize_circuit/hardware_configuration.py:13-26 | on an accepted basis set it stores the set and the qubit number; lengths start at 10, 10, 10 and 100 |
| HardwareConfig.HardwareConfiguration.Create | optimize_circuit/hardware_configuration.py:13-26 | construction raises `ValueError` exactly when the basis set is not accepted (the default set when the argument is omitted); otherwise the new object holds the set, the qubit number and the default lengths |
| HardwareConfig.HardwareConfiguration.ValidateQubitIndex | optimize_circuit/hardware_configuration.py:28-35 | passes exactly for an int in [0, qubit number), raising `ValueError` otherwise |
| HardwareConfig.HardwareConfiguration.DurationOfOneQubitGates | optimize_circuit/hardware_configuration.py:37-56 | the accumulating loop returns `Duration` of the list over the current lengths, so it raises `ValueError` exactly when the list holds a CX; on a valid configuration a list of rotations takes at least one unit per gate |
| HardwareConfig.DurationOfRotations | optimize_circuit/hardware_configuration.py:44-56 | with positive lengths, the duration of a list without CX is defined and at least its length |
| HardwareConfig.HardwareConfiguration.SetLengthX | optimize_circuit/hardware_configuration.py:88-95 | raises as the length check says; otherwise stores the value; changes no other field and keeps the configuration valid |
| HardwareConfig.HardwareConfiguration.SetLengthY | optimize_circuit/hardware_configuration.py:97-104 | likewise for the Y length |
| HardwareConfig.HardwareConfiguration.SetLengthZ | optimize_circuit/hardware_configuration.py:106-113 | likewise for the Z length |
| HardwareConfig.HardwareConfiguration.SetLengthCx | optimize_circuit/hardware_configuration.py:115-118 | stores any value, unchecked, and nothing else |
| Hardware.Range | optimize_circuit/hardware.py:9 | `list(range(n))` is `[0, …, n - 1]`, empty when n is at most 0 |
| Hardware.QuantumHardware.constructor | optimize_circuit/hardware.py:3-15 | on an accepted CNOT basis set it stores the qubit number, the indexes `0 .. n - 1` and the set; lengths 10, 10, 10 and 100 |
| Hardware.QuantumHardware.Create | optimize_circuit/hardware.py:3-15 | `None` stands for {X, Y, Z, CNOT}; construction raises `ValueError` exactly when the `basis_gates` setter refuses the set |
| Hardware.QuantumHardware.SetBasisGates | optimize_circuit/hardware.py:74-84 | accepts exactly the four CNOT sets; any other set raises `ValueError` and leaves the stored set unchanged |
| Hardware.QuantumHardware.SetLengthX | optimize_circuit/hardware.py:42-49 | raises as the length check says; otherwise stores the value, which all three getters then show |
| Hardware.QuantumHardware.SetLengthY | optimize_circuit/hardware.py:51-58 | raises as the length check says; otherwise stores the value, yet what the `length_y` getter returns (lines 22-25) does not change |
| Hardware.QuantumHardware.SetLengthZ | optimize_circuit/hardware.py:60-67 | likewise for Z: the `length_z` getter (lines 27-30) is unchanged |
| Hardware.QuantumHardware.SetLengthCx | optimize_circuit/hardware.py:69-72 | stores any value, unchecked |
| Hardware.QuantumHardware.ValidLengthsAndBasis | optimize_circuit/hardware.py:17-84 | on an object whose setters' checks hold, every length getter reports a positive length and the basis holds `CNOT` and at least two rotation axes |
| Hardware.QuantumHardware.LengthX | optimize_circuit/hardware.py:17-20 | the `length_x` getter reports the stored X length |
| Hardware.QuantumHardware.LengthY | optimize_circuit/hardware.py:22-25 | the `length_y` getter reports the stored X length, not the Y length |
| Hardware.QuantumHardware.LengthZ | optimize_circuit/hardware.py:27-30 | the `length_z` getter reports the stored X length, not the Z length |
| Circuit.ParsePiece | optimize_circuit/circuit.py:100-117 | a CX piece that succeeds has digits at position 3 and at the end that form (0, 1) or (1, 0), and yields that CX; a rotation piece that succeeds starts with X, Y or Z and yields class Y for `Y` and class X for both `X` and `Z`, with the index character at position 2; a piece of at least three characters that is not CX and starts with another letter fails |
| Circuit.ParsePieceOutcomes | optimize_circuit/circuit.py:99-117 | a CX piece succeeds exactly when both characters are digits forming an accepted pair; a rotation piece succeeds exactly when it starts with X, Y or Z and `float()` reads its last word, and the angle is what `float()` read; a piece too short to index raises `IndexError`, an unreadable angle `ValueError`; every error is `IndexError`, `ValueError` or `TypeError` |
| Circuit.ParseGates | optimize_circuit/circuit.py:99-117 | on success, one object is built per piece |
| Circuit.ParseGatesOkIffEveryPiece | optimize_circuit/circuit.py:99-117 | the loop gets through all the pieces exactly when every piece parses on its own |
| Circuit.PrefixFailureIsFinal | optimize_circuit/circuit.py:99-117 | the first failing piece decides the outcome, whatever follows it |
| Circuit.PieceEndingInParenFails | optimize_circuit/circuit.py:100-106 | a piece that still ends with `)` never parses, given that `float()` refuses words ending with `)` |
| Circuit.TextEndingInParenFails | optimize_circuit/circuit.py:99-106 | any text ending with `)` is refused, because its last piece keeps the parenthesis |
| Circuit.TrailingWordAfterSpace | optimize_circuit/circuit.py:106 | the last word of a text that ends in whitespace and then a word is that word |
| Circuit.CXNotationParses | optimize_circuit/circuit.py:100-103 | a CX notation without its closing parenthesis parses back to the same CX; with the parenthesis it raises `ValueError` |
| Circuit.RotationPieceParses | optimize_circuit/circuit.py:104-112 | a piece `c(d, w` with c in X, Y, Z and a word `w` that `float()` reads builds the rotation of class Y for `Y` and class X otherwise, on index character `d`, with that angle |
| Circuit.RotationNotationParses | optimize_circuit/circuit.py:104-112 | a rotation notation on a one-digit qubit, without its closing parenthesis, parses back to the same angle, when `float()` reads back what `str()` printed |
| Circuit.Notations | optimize_circuit/circuit.py:121 | the per-gate notations, in order; a string in the list raises `AttributeError` |
| Circuit.JoinEndsWithParen | optimize_circuit/circuit.py:121 | a join whose last element ends with `)` ends with `)` |
| Circuit.NotationsJoinEndsWithParen | optimize_circuit/circuit.py:121 | the joined notations of a non-empty list of gate objects end with `)` |
| Circuit.CircuitText | optimize_circuit/circuit.py:119-121 | the text of an item list: `AttributeError` exactly when some item is a string; `""` for the empty list; otherwise a text ending with `)` |
| Circuit.OwnTextDoesNotParse | optimize_circuit/circuit.py:119-121 | what `__str__` prints for a non-empty gate list is refused by `add_from_string` |
| Circuit.QuantumCircuit.constructor | optimize_circuit/circuit.py:11-25 | lengths 10, 10, 10, `length_cnot` 100, basis {X, Y, Z, CNOT} and no gates |
| Circuit.QuantumCircuit.SetLengthX | optimize_circuit/circuit.py:47-54 | raises as the length check says; otherwise stores the value, which all three getters (lines 27-40) then show |
| Circuit.QuantumCircuit.SetLengthY | optimize_circuit/circuit.py:56-63 | stores a checked value that the `length_y` getter never shows |
| Circuit.QuantumCircuit.SetLengthZ | optimize_circuit/circuit.py:65-72 | stores a checked value that the `length_z` getter never shows |
| Circuit.QuantumCircuit.SetHardwareBasisGates | optimize_circuit/circuit.py:74-84 | accepts exactly the four CNOT sets, else raises `ValueError` and keeps the old set |
| Circuit.QuantumCircuit.Add | optimize_circuit/circuit.py:86-91 | appends its argument when it is a string and otherwise leaves `gates` unchanged |
| Circuit.QuantumCircuit.AddFromString | optimize_circuit/circuit.py:93-117 | splits on `"), "` and raises the first piece's error; never changes `gates` |
| Circuit.QuantumCircuit.Str | optimize_circuit/circuit.py:119-121 | succeeds exactly when every item is a gate object, and prints the empty list as `""` |
| Circuit.QuantumCircuit.ValidLengthsAndBasis | optimize_circuit/circuit.py:27-84 | on an object whose setters' checks hold, every length getter reports a positive length and the basis holds `CNOT` and at least two rotation axes |
| Circuit.QuantumCircuit.LengthX | optimize_circuit/circuit.py:27-30 | the `length_x` getter reports the stored X length |
| Circuit.QuantumCircuit.LengthY | optimize_circuit/circuit.py:32-35 | the `length_y` getter reports the stored X length, not the Y length |
| Circuit.QuantumCircuit.LengthZ | optimize_circuit/circuit.py:37-40 | the `length_z` getter reports the stored X length, not the Z length |
| OptimizeGates.Trunc | optimize_circuit/optimize_gates.py:65 | `int()` of a float truncates toward zero |
| OptimizeGates.OptimizeTwoGate | optimize_circuit/optimize_gates.py:94-119 | raises `IndexError` exactly on the empty list and on a lone rotation; two gates on one axis give `[]` when the truncated sum is a multiple of 360, and otherwise one gate on that axis, on qubit 0, with the summed angle; any other list comes back unchanged, so the result is never longer |
| OptimizeGates.Negated | optimize_circuit/optimize_gates.py:132 | the negated gate keeps its axis and qubit and negates the angle |
| OptimizeGates.OptimizeWithThreeGateIdentities | optimize_circuit/optimize_gates.py:122-157 | an outer X, Y or Z pair at truncated 180 around a rotation on another axis gives that rotation negated; three rotations at truncated 90, 180, 90 give the middle one; the two patterns exclude each other; reading a CX's angle in the 90-180-90 test raises `AttributeError`; otherwise the list is unchanged |
| OptimizeGates.OptimizeThreeGate | optimize_circuit/optimize_gates.py:75-91 | the first pair is merged before the last pair, and a merged pair is spliced back and merged again; a pair collapsing to nothing leaves one gate, which raises `IndexError` when it is a rotation; with no merge the identities decide; on rotations it fails exactly in those collapse cases; the result is unchanged or shorter |
| OptimizeGates.MicroOptimizeOneQubitCircuit | optimize_circuit/optimize_gates.py:60-72 | one gate becomes `[]` when its truncated angle is a multiple of 360 and is kept otherwise; lengths 0 and above 3 give `None`; two gates never fail; on rotations only three-gate windows can fail, with `IndexError`; the result is unchanged or strictly shorter |
| OptimizeGates.SecondPassChangesLittle | optimize_circuit/optimize_gates.py:60-91 | running the rewriter again on its own non-empty rotation output either returns it unchanged or returns `[]` |
| OptimizeGates.ConjugationCollapses | optimize_circuit/optimize_gates.py:128-150 | any conjugation window rewrites to the negated middle gate on its own qubit |
| OptimizeGates.FullTurnExamples | tests/test_optimize.py:19-27 | X(90) X(90) X(180) and Y(90) Y(90) Y(180) give `[]` |
| OptimizeGates.IdentityExamples | tests/test_optimize.py:29-37 | Y(180) X(86) Y(180) gives X(-86) and Z(90) X(180) Z(90) gives X(180) |
| OptimizeGates.CollapseExample | optimize_circuit/optimize_gates.py:75-91 | X(180) X(180) Y(10) raises `IndexError`: the collapsed pair leaves one rotation for the two-gate rule |
| OptimizeGates.CXInWindow | optimize_circuit/optimize_gates.py:64-72 | a lone CX survives the two-gate rule but raises `AttributeError` in the one-gate rule; a CX between two rotations raises in the 90-180-90 test when the first angle is 90, and is kept otherwise |
| OptimizeGates.DurationFollowsClasses | optimize_circuit/hardware_configuration.py:44-56 | two lists with the same gate classes, position by position, take the same time |
| OptimizeGates.RenderingsTakeSameTime | optimize_circuit/optimize_gates.py:53-57 | for every unitary and every set of lengths, the ZXZ and ZYZ durations are defined and equal |
| OptimizeGates.UToOptimalThreeGates | optimize_circuit/optimize_gates.py:38-57 | returns one of the two renderings: ZYZ without X in the basis, ZXZ with X but without Y, and otherwise ZXZ only when its duration is strictly smaller, so ties go to ZYZ |
| OptimizeGates.FullBasisPicksZyz | optimize_circuit/optimize_gates.py:48-57 | with X and Y in the basis, the selector always returns ZYZ |
| OptimizeGates.SelectorEmitsNoX | optimize_circuit/optimize_gates.py:45-51 | the selector returns only Y and Z gates; on the basis {X, Z, CX}, a non-zero theta gives a Y gate, which that basis lacks |
| OptimizeGates.OptimizeOneQubitCircuit | optimize_circuit/optimize_gates.py:6-35 | succeeds exactly when the list is non-empty, does not start with a CX and the angle extraction succeeds; an empty list raises `IndexError`, a leading CX `AttributeError`, and an extraction error is passed on unchanged; a result has at most three Y and Z gates, all on the first gate's qubit; it is the ZYZ rendering of the extracted angles without X in the basis or with both X and Y, and the ZXZ rendering with X but without Y |

## Left out

- Complex matrices are not modelled. This covers the `arr` of X, Y, Z and `OneQubitUnitary` (built with `np.cos`, `np.sin` and `np.exp`), and the product, phase stripping and `arccos`/`angle` extraction in `optimize_one_qubit_circuit`, including its `ArithmeticError` check. These are floating-point complex numerics, so the model cannot prove unitarity or that a rewrite keeps the operation. The code's Y matrix duplicates the X matrix, and degrees are fed to functions expecting radians; neither shows in the model.
- OptimizeGates.OptimizeOneQubitCircuit: the numerical part is the parameter `eulerAngles`, so the contract says nothing about how the extracted angles relate to the gates. A CX later in the list fails inside that numerical part (a 2x2 by 4x4 product), and so it is one of the errors `eulerAngles` may return.
- `np.pi / 2` is `HALF_PI`, the decimal of the double it evaluates to. Angles are exact reals, so the model has no float rounding in the sums of `optimize_two_gate`, in `lam - π/2` or in `phi + π/2`.
- `float()` and the rendering of a float by `str()` are the parameters `parseFloat` and `showReal`. The properties that depend on them state what they need: `float()` refuses a word ending with `)`, and it reads back what `str()` printed.
- Text.DigitValue: `int()` on one character accepts only ASCII digits here, although Python also accepts other Unicode decimal digits.
- Text.IsSpace: only the whitespace characters below 128 are modelled. Python's `split()` also splits on non-ASCII whitespace such as U+0085, U+00A0 and the Unicode space separators.
- Validation.LengthCheck: a Python `bool` is an `int`, so `True` passes the setters as 1. `Value` does not separate booleans from other ints.
- OptimizeGates.OptimizeThreeGate and OptimizeGates.OptimizeWithThreeGateIdentities require exactly three gates. Their only caller passes three-gate windows, and the functions index positions 0 to 2.
- The constructors that raise are each modelled as a Dafny constructor that requires an accepted basis set, plus a static `Create` that models the raising path. Which attribute is assigned before the raise does not matter, because a raising constructor yields no object.
- HardwareConfig.HardwareConfiguration.Create, Hardware.QuantumHardware.SetBasisGates and Circuit.QuantumCircuit.SetHardwareBasisGates, and the constructors that call them, store the basis set as a value. The code stores the caller's own mutable set object (optimize_circuit/hardware_configuration.py:20, optimize_circuit/hardware.py:84, optimize_circuit/circuit.py:84), so a caller who later changes that set changes the stored basis without any check. The model does not capture this aliasing, and the `Valid()` invariants of the three classes hold only under value semantics.
- The getters of `HardwareConfiguration` are the fields themselves. Properties are read directly, because each getter returns its own field.
- The qubit number of every class is an `int`. The code stores whatever it is given, and `QuantumHardware` calls `range` on it, which raises for a non-int.
- The stubs are not modelled: `to_xyx_gates` to `to_zyz_gates`, `TwoQubitUnitary`, and `u_to_xyx_gates` to `u_to_yzy_gates`. They have no behaviour and return `None`.
- The test files call an API that the code does not have: `QuantumCircuit(hardware)`, `optimize()` and `len(circuit)`. `tests/test_circuit.py` is not part of this model. From `tests/test_optimize.py`, only the peephole examples are used.
- `add_from_string` passes each built gate to `add`, which ignores it. The model builds the gate and leaves the call to `add` out. The index of a rotation is kept as the character at position 2, as the code keeps it.
