/** The optimizer: the peephole rewriter for windows of one to three
    rotations, the hardware selector between the two Euler renderings, and
    the gate-list tail of the one-qubit driver. */
module OptimizeGates {
  import opened Outcomes
  import opened Gates
  import opened Transformations
  import opened HardwareConfig

  /** Python's `int()` on a float: truncation toward zero. */
  function Trunc(r: real): (t: int)
    ensures 0.0 <= r ==> t as real <= r < t as real + 1.0
    ensures r < 0.0 ==> t as real - 1.0 < r <= t as real
  {
    if r >= 0.0 then r.Floor else -((-r).Floor)
  }

  /** `int(theta) % 360 == 0`: the angle counts as no rotation. Python's `%`
      by a positive number agrees with Dafny's. */
  predicate IsFullTurn(theta: real) {
    Trunc(theta) % 360 == 0
  }

  /** Both gates are X, both Y, or both Z; a CX is on no axis. */
  predicate SameAxis(a: Gate, b: Gate) {
    (a.X? && b.X?) || (a.Y? && b.Y?) || (a.Z? && b.Z?)
  }

  /** The two gates merge, and their summed angle counts as no rotation. */
  predicate CollapsesToEmpty(a: Gate, b: Gate) {
    SameAxis(a, b) && IsFullTurn(a.theta + b.theta)
  }

  /** `optimize_two_gate`: two gates on the same axis merge into one gate on
      qubit 0 with the summed angle, or into nothing when that angle counts
      as no rotation; otherwise the list comes back unchanged. Each of the
      three `isinstance` tests reads the second gate once the first gate
      is of its class, so a list whose only gate is a rotation raises
      `IndexError`, as does the empty list; a lone CX is returned. */
  function OptimizeTwoGate(gateList: seq<Gate>): (r: Result<seq<Gate>>)
    ensures r.Err? <==> |gateList| == 0 || (|gateList| == 1 && gateList[0].IsRotation())
    ensures r.Err? ==> r.error == IndexError
    ensures r.Ok? ==> |r.value| <= |gateList| && (AllRotations(gateList) ==> AllRotations(r.value))
    ensures r.Ok? && (|gateList| < 2 || !SameAxis(gateList[0], gateList[1])) ==> r.value == gateList
    ensures |gateList| >= 2 && SameAxis(gateList[0], gateList[1]) ==>
      var theta := gateList[0].theta + gateList[1].theta;
      && r.Ok? && |r.value| <= 1
      && (r.value == [] <==> IsFullTurn(theta))
      && (|r.value| == 1 ==>
            SameAxis(r.value[0], gateList[0]) && r.value[0].qubitIndex == 0 && r.value[0].theta == theta)
  {
    if |gateList| == 0 then Err(IndexError)
    else if gateList[0].IsRotation() && |gateList| == 1 then Err(IndexError)
    else if gateList[0].X? && gateList[1].X? then
      var theta := gateList[0].theta + gateList[1].theta;
      if IsFullTurn(theta) then Ok([]) else Ok([X(0, theta)])
    else if gateList[0].Y? && gateList[1].Y? then
      var theta := gateList[0].theta + gateList[1].theta;
      if IsFullTurn(theta) then Ok([]) else Ok([Y(0, theta)])
    else if gateList[0].Z? && gateList[1].Z? then
      var theta := gateList[0].theta + gateList[1].theta;
      if IsFullTurn(theta) then Ok([]) else Ok([Z(0, theta)])
    else Ok(gateList)
  }

  /** The gate `g` with its angle negated, on the same axis and qubit. */
  function Negated(g: Gate): (n: Gate)
    requires g.IsRotation()
    ensures n.IsRotation() && SameAxis(n, g) && n.qubitIndex == g.qubitIndex && n.theta == -g.theta
  {
    match g
    case X(i, t) => X(i, -t)
    case Y(i, t) => Y(i, -t)
    case Z(i, t) => Z(i, -t)
  }

  /** The conjugation pattern `P(180) Q(θ) P(180)`: outer gates on one axis
      at a truncated 180 degrees, the middle gate a rotation on another axis. */
  predicate IsConjugation(gateList: seq<Gate>)
    requires |gateList| == 3
  {
    && SameAxis(gateList[0], gateList[2]) && gateList[1].IsRotation() && !SameAxis(gateList[0], gateList[1])
    && Trunc(gateList[0].theta) == 180 && Trunc(gateList[2].theta) == 180
  }

  /** The pattern `90, 180, 90` on the truncated angles of three rotations,
      whatever their axes. */
  predicate IsNinetyHalfNinety(gateList: seq<Gate>)
    requires |gateList| == 3
  {
    && AllRotations(gateList)
    && Trunc(gateList[0].theta) == 90 && Trunc(gateList[1].theta) == 180 && Trunc(gateList[2].theta) == 90
  }

  /** The `90, 180, 90` test reads, left to right and stopping at the first
      comparison that fails, the angle of a CX gate. */
  predicate NinetyTestReadsCX(gateList: seq<Gate>)
    requires |gateList| == 3
  {
    || gateList[0].CX?
    || (Trunc(gateList[0].theta) == 90
        && (gateList[1].CX? || (Trunc(gateList[1].theta) == 180 && gateList[2].CX?)))
  }

  /** `optimize_with_three_gate_identities`: the X-, Y- and Z-outer
      conjugations give the middle gate negated on its own qubit; failing
      those, `90, 180, 90` gives the middle gate; otherwise nothing changes.
      The two patterns exclude each other, so their order does not matter.
      Reading the angle of a CX raises `AttributeError`. */
  function OptimizeWithThreeGateIdentities(gateList: seq<Gate>): (r: Result<seq<Gate>>)
    requires |gateList| == 3
    ensures !(IsConjugation(gateList) && IsNinetyHalfNinety(gateList))
    ensures IsConjugation(gateList) ==> r == Ok([Negated(gateList[1])])
    ensures IsNinetyHalfNinety(gateList) ==> r == Ok([gateList[1]])
    ensures r.Err? <==> !IsConjugation(gateList) && NinetyTestReadsCX(gateList)
    ensures r.Err? ==> r.error == AttributeError
    ensures !IsConjugation(gateList) && !IsNinetyHalfNinety(gateList) && r.Ok? ==> r.value == gateList
  {
    var first, middle, last := gateList[0], gateList[1], gateList[2];
    if first.X? && last.X? && Trunc(first.theta) == 180 && Trunc(last.theta) == 180
       && (middle.Y? || middle.Z?) then
      if middle.Y? then Ok([Y(middle.qubitIndex, -middle.theta)])
      else Ok([Z(middle.qubitIndex, -middle.theta)])
    else if first.Y? && last.Y? && Trunc(first.theta) == 180 && Trunc(last.theta) == 180
       && (middle.X? || middle.Z?) then
      if middle.X? then Ok([X(middle.qubitIndex, -middle.theta)])
      else Ok([Z(middle.qubitIndex, -middle.theta)])
    else if first.Z? && last.Z? && Trunc(first.theta) == 180 && Trunc(last.theta) == 180
       && (middle.X? || middle.Y?) then
      if middle.X? then Ok([X(middle.qubitIndex, -middle.theta)])
      else Ok([Y(middle.qubitIndex, -middle.theta)])
    else if first.CX? then Err(AttributeError)
    else if Trunc(first.theta) != 90 then Ok(gateList)
    else if middle.CX? then Err(AttributeError)
    else if Trunc(middle.theta) != 180 then Ok(gateList)
    else if last.CX? then Err(AttributeError)
    else if Trunc(last.theta) == 90 then Ok([middle])
    else Ok(gateList)
  }

  /** `optimize_three_gate`: the first pair is merged before the last pair;
      a merged pair is spliced back and the two-gate rule runs again; only
      when neither pair merges are the identities tried. A pair that
      collapses to nothing leaves a single gate for the two-gate rule, which
      raises `IndexError` when that gate is a rotation. */
  function OptimizeThreeGate(gateList: seq<Gate>): (r: Result<seq<Gate>>)
    requires |gateList| == 3
    ensures AllRotations(gateList) ==>
      (r.Err? <==>
         CollapsesToEmpty(gateList[0], gateList[1])
         || (!SameAxis(gateList[0], gateList[1]) && CollapsesToEmpty(gateList[1], gateList[2])))
    ensures r.Ok? ==> (r.value == gateList || |r.value| < 3) && (AllRotations(gateList) ==> AllRotations(r.value))
    ensures CollapsesToEmpty(gateList[0], gateList[1]) ==>
      r == if gateList[2].IsRotation() then Err(IndexError) else Ok([gateList[2]])
    ensures SameAxis(gateList[0], gateList[1]) && !CollapsesToEmpty(gateList[0], gateList[1]) ==>
      r == OptimizeTwoGate([OptimizeTwoGate(gateList[..2]).value[0], gateList[2]])
    ensures !SameAxis(gateList[0], gateList[1]) && CollapsesToEmpty(gateList[1], gateList[2]) ==>
      r == if gateList[0].IsRotation() then Err(IndexError) else Ok([gateList[0]])
    ensures !SameAxis(gateList[0], gateList[1]) && SameAxis(gateList[1], gateList[2])
            && !CollapsesToEmpty(gateList[1], gateList[2]) ==>
      r == Ok([gateList[0], OptimizeTwoGate(gateList[1..]).value[0]])
    ensures !SameAxis(gateList[0], gateList[1]) && !SameAxis(gateList[1], gateList[2]) ==>
      r == OptimizeWithThreeGateIdentities(gateList)
  {
    var optimizedFirstTwoGates := OptimizeTwoGate(gateList[0..2]).value;
    var optimizedLastTwoGates := OptimizeTwoGate(gateList[1..]).value;
    if |optimizedFirstTwoGates| <= 1 then
      assert optimizedFirstTwoGates == [] ==> optimizedFirstTwoGates + gateList[2..] == [gateList[2]];
      assert |optimizedFirstTwoGates| == 1 ==>
        optimizedFirstTwoGates + gateList[2..] == [optimizedFirstTwoGates[0], gateList[2]];
      OptimizeTwoGate(optimizedFirstTwoGates + gateList[2..])
    else if |optimizedLastTwoGates| <= 1 then
      assert optimizedLastTwoGates == [] ==> gateList[0..1] + optimizedLastTwoGates == [gateList[0]];
      assert |optimizedLastTwoGates| == 1 ==>
        gateList[0..1] + optimizedLastTwoGates == [gateList[0], optimizedLastTwoGates[0]];
      OptimizeTwoGate(gateList[0..1] + optimizedLastTwoGates)
    else
      OptimizeWithThreeGateIdentities(gateList)
  }

  /** `micro_optimize_one_qubit_circuit`: one gate disappears when its angle
      counts as no rotation and is otherwise kept; two and three gates go to
      their rules; any other length falls through and returns `None`. The
      result is never longer than the input, and a changed result is
      strictly shorter. A lone CX has no angle to read. */
  function MicroOptimizeOneQubitCircuit(gateList: seq<Gate>): (r: Result<Option<seq<Gate>>>)
    ensures r == Ok(None) <==> |gateList| == 0 || |gateList| > 3
    ensures |gateList| == 1 ==>
      r == if gateList[0].CX? then Err(AttributeError)
           else Ok(Some(if IsFullTurn(gateList[0].theta) then [] else gateList))
    ensures |gateList| == 2 ==> r.Ok?
    ensures r.Err? ==> r.error == IndexError || r.error == AttributeError
    ensures AllRotations(gateList) && r.Err? ==> |gateList| == 3 && r.error == IndexError
    ensures r.Ok? && r.value.Some? ==>
      && (AllRotations(gateList) ==> AllRotations(r.value.value))
      && (r.value.value == gateList || |r.value.value| < |gateList|)
  {
    if |gateList| == 1 then
      if gateList[0].CX? then Err(AttributeError)
      else if IsFullTurn(gateList[0].theta) then Ok(Some([])) else Ok(Some(gateList))
    else if |gateList| == 2 then
      Ok(Some(OptimizeTwoGate(gateList).value))
    else if |gateList| == 3 then
      match OptimizeThreeGate(gateList)
      case Err(e) => Err(e)
      case Ok(gates) => Ok(Some(gates))
    else
      Ok(None)
  }

  /** A second pass of the peephole rewriter over its own non-empty output
      either changes nothing or deletes a lone gate: the only output it can
      still shrink is a negated middle gate whose angle counts as no
      rotation. */
  lemma SecondPassChangesLittle(gateList: seq<Gate>)
    requires AllRotations(gateList)
    requires MicroOptimizeOneQubitCircuit(gateList).Ok? && MicroOptimizeOneQubitCircuit(gateList).value.Some?
    ensures var out := MicroOptimizeOneQubitCircuit(gateList).value.value;
      out != [] ==>
        MicroOptimizeOneQubitCircuit(out) == Ok(Some(out)) || MicroOptimizeOneQubitCircuit(out) == Ok(Some([]))
  {
    var out := MicroOptimizeOneQubitCircuit(gateList).value.value;
    if |gateList| == 3 && |out| == 2 {
      var g0, g1, g2 := gateList[0], gateList[1], gateList[2];
      if SameAxis(g0, g1) {
        var m := OptimizeTwoGate(gateList[..2]).value[0];
        assert out == OptimizeTwoGate([m, g2]).value;
        assert !SameAxis(m, g2) && out == [m, g2];
      } else {
        assert SameAxis(g1, g2);
        var m := OptimizeTwoGate(gateList[1..]).value[0];
        assert out == [g0, m] && !SameAxis(g0, m);
      }
    }
  }

  /** Conjugating any non-X rotation by two X(180) gates (and likewise for
      the Y and Z outer pairs) leaves the negated middle gate on its own
      qubit, whatever its angle. */
  lemma ConjugationCollapses(gateList: seq<Gate>)
    requires |gateList| == 3 && AllRotations(gateList) && IsConjugation(gateList)
    ensures MicroOptimizeOneQubitCircuit(gateList) == Ok(Some([Negated(gateList[1])]))
  {
    assert !SameAxis(gateList[1], gateList[2]);
  }

  /** Three rotations on one axis whose angles add up to 360 vanish, as
      the repository's tests expect. */
  lemma FullTurnExamples()
    ensures MicroOptimizeOneQubitCircuit([X(0, 90.0), X(0, 90.0), X(0, 180.0)]) == Ok(Some([]))
    ensures MicroOptimizeOneQubitCircuit([Y(0, 90.0), Y(0, 90.0), Y(0, 180.0)]) == Ok(Some([]))
  {
    assert Trunc(180.0) == 180 && Trunc(90.0) == 90 && Trunc(360.0) == 360;
  }

  /** The two three-gate identities on the repository's test inputs:
      Y(180) X(86) Y(180) becomes X(-86) and Z(90) X(180) Z(90) becomes
      X(180). */
  lemma IdentityExamples()
    ensures MicroOptimizeOneQubitCircuit([Y(0, 180.0), X(0, 86.0), Y(0, 180.0)]) == Ok(Some([X(0, -86.0)]))
    ensures MicroOptimizeOneQubitCircuit([Z(0, 90.0), X(0, 180.0), Z(0, 90.0)]) == Ok(Some([X(0, 180.0)]))
  {
    assert Trunc(180.0) == 180 && Trunc(90.0) == 90 && Trunc(86.0) == 86;
    assert MicroOptimizeOneQubitCircuit([Y(0, 180.0), X(0, 86.0), Y(0, 180.0)]) == Ok(Some([Negated(X(0, 86.0))]))
      by { ConjugationCollapses([Y(0, 180.0), X(0, 86.0), Y(0, 180.0)]); }
  }

  /** X(180), X(180) collapse and leave one gate for the two-gate rule,
      which raises `IndexError`. */
  lemma CollapseExample()
    ensures MicroOptimizeOneQubitCircuit([X(0, 180.0), X(0, 180.0), Y(0, 10.0)]) == Err(IndexError)
  {
    assert Trunc(180.0) == 180 && Trunc(360.0) == 360;
  }

  /** A CX in the window: a lone CX is returned by the two-gate rule but has
      no angle for the one-gate rule, and a CX between two rotations reaches
      the `90, 180, 90` test, which reads its angle. */
  lemma CXInWindow()
    ensures OptimizeTwoGate([CX(0, 1)]) == Ok([CX(0, 1)])
    ensures MicroOptimizeOneQubitCircuit([CX(0, 1)]) == Err(AttributeError)
    ensures MicroOptimizeOneQubitCircuit([X(0, 90.0), CX(0, 1), X(0, 90.0)]) == Err(AttributeError)
    ensures MicroOptimizeOneQubitCircuit([X(0, 45.0), CX(0, 1), X(0, 90.0)]) == Ok(Some([X(0, 45.0), CX(0, 1), X(0, 90.0)]))
  {
    assert Trunc(90.0) == 90 && Trunc(45.0) == 45;
  }

  /** Two lists with the same gate classes, position by position, take the
      same time. */
  lemma {:induction false} DurationFollowsClasses(a: seq<Gate>, b: seq<Gate>, lx: int, ly: int, lz: int)
    requires |a| == |b| && forall k :: 0 <= k < |a| ==> Letter(a[k]) == Letter(b[k])
    ensures Duration(a, lx, ly, lz) == Duration(b, lx, ly, lz)
    decreases |a|
  {
    if |a| > 0 {
      DurationFollowsClasses(a[..|a| - 1], b[..|b| - 1], lx, ly, lz);
      assert Letter(a[|a| - 1]) == Letter(b[|b| - 1]);
    }
  }

  /** Both renderings always take the same time. */
  lemma RenderingsTakeSameTime(u: OneQubitUnitary, lx: int, ly: int, lz: int)
    ensures Duration(ZxzGates(u), lx, ly, lz) == Duration(ZyzGates(u), lx, ly, lz)
    ensures Duration(ZyzGates(u), lx, ly, lz).Ok?
  {
    RenderingsHaveSameShape(u);
    DurationFollowsClasses(ZxzGates(u), ZyzGates(u), lx, ly, lz);
    DurationFailsIffCX(ZyzGates(u), lx, ly, lz);
  }

  /** `u_to_optimal_three_gates`: ZYZ without X in the basis, ZXZ without Y,
      otherwise ZXZ only when it is strictly shorter, ties going to ZYZ. */
  function UToOptimalThreeGates(u: OneQubitUnitary, hardware: HardwareConfiguration): (r: seq<Gate>)
    reads hardware
    ensures r == ZxzGates(u) || r == ZyzGates(u)
    ensures "X" !in hardware.basisGates ==> r == ZyzGates(u)
    ensures "X" in hardware.basisGates && "Y" !in hardware.basisGates ==> r == ZxzGates(u)
    ensures "X" in hardware.basisGates && "Y" in hardware.basisGates && r != ZyzGates(u) ==>
      var zxz := Duration(ZxzGates(u), hardware.xLength, hardware.yLength, hardware.zLength);
      var zyz := Duration(ZyzGates(u), hardware.xLength, hardware.yLength, hardware.zLength);
      zxz.Ok? && zyz.Ok? && zxz.value < zyz.value
  {
    var gatesZxz := ZxzGates(u);
    var gatesZyz := ZyzGates(u);
    if "X" !in hardware.basisGates then gatesZyz
    else if "Y" !in hardware.basisGates then gatesZxz
    else
      var zxz := Duration(gatesZxz, hardware.xLength, hardware.yLength, hardware.zLength);
      var zyz := Duration(gatesZyz, hardware.xLength, hardware.yLength, hardware.zLength);
      // neither rendering holds a CX, so both durations are defined
      // (RenderingsTakeSameTime) and the comparison is the source's `<`
      if zxz.Ok? && zyz.Ok? && zxz.value < zyz.value then gatesZxz
      else gatesZyz
  }

  /** With both X and Y in the basis the durations always tie, so the ZYZ
      rendering is always the one returned. */
  lemma {:induction false} FullBasisPicksZyz(u: OneQubitUnitary, hardware: HardwareConfiguration)
    requires "X" in hardware.basisGates && "Y" in hardware.basisGates
    ensures UToOptimalThreeGates(u, hardware) == ZyzGates(u)
  {
    RenderingsTakeSameTime(u, hardware.xLength, hardware.yLength, hardware.zLength);
  }

  /** The selector never returns an X gate: on the basis {X, Z, CX} a
      non-zero middle angle yields a Y gate that the basis lacks. */
  lemma {:induction false} SelectorEmitsNoX(u: OneQubitUnitary, hardware: HardwareConfiguration)
    ensures forall g <- UToOptimalThreeGates(u, hardware) :: g.Y? || g.Z?
    ensures hardware.basisGates == {"X", "Z", "CX"} && u.theta != 0.0 ==>
      exists k :: 0 <= k < |UToOptimalThreeGates(u, hardware)| && UToOptimalThreeGates(u, hardware)[k].Y?
  {
    if hardware.basisGates == {"X", "Z", "CX"} && u.theta != 0.0 {
      assert "Y" !in hardware.basisGates;
      var r := UToOptimalThreeGates(u, hardware);
      var k := if u.lam != 0.0 then 1 else 0;
      assert r[k] == Y(u.index, u.theta);
    }
  }

  /** The tail of `optimize_one_qubit_circuit`. The product of the gate
      matrices, the phase stripping and the angle extraction are floating-point
      complex numerics; `eulerAngles` stands for them and gives
      (theta, phi, lam) in degrees, or the error they raise. The qubit index
      is read from the first gate. */
  function OptimizeOneQubitCircuit(gateList: seq<Gate>, hardware: HardwareConfiguration,
                                   eulerAngles: seq<Gate> -> Result<(real, real, real)>): (r: Result<seq<Gate>>)
    reads hardware
    ensures |gateList| == 0 ==> r == Err(IndexError)
    ensures |gateList| > 0 && gateList[0].CX? ==> r == Err(AttributeError)
    ensures r.Ok? ==> |r.value| <= 3 && forall g <- r.value :: (g.Y? || g.Z?) && g.qubitIndex == gateList[0].qubitIndex
    ensures r.Ok? <==> |gateList| > 0 && !gateList[0].CX? && eulerAngles(gateList).Ok?
    ensures |gateList| > 0 && !gateList[0].CX? && eulerAngles(gateList).Err? ==>
              r == Err(eulerAngles(gateList).error)
    ensures r.Ok? ==>
              var (theta, phi, lam) := eulerAngles(gateList).value;
              var u := OneQubitUnitary(gateList[0].qubitIndex, theta, phi, lam);
              && ("X" !in hardware.basisGates ==> r.value == ZyzGates(u))
              && ("X" in hardware.basisGates && "Y" !in hardware.basisGates ==> r.value == ZxzGates(u))
              && ("X" in hardware.basisGates && "Y" in hardware.basisGates ==> r.value == ZyzGates(u))
  {
    if |gateList| == 0 then Err(IndexError)
    else if gateList[0].CX? then Err(AttributeError)
    else
      match eulerAngles(gateList)
      case Err(e) => Err(e)
      case Ok((theta, phi, lam)) =>
        var u := OneQubitUnitary(gateList[0].qubitIndex, theta, phi, lam);
        if "X" in hardware.basisGates && "Y" in hardware.basisGates then
          FullBasisPicksZyz(u, hardware);
          Ok(UToOptimalThreeGates(u, hardware))
        else
          Ok(UToOptimalThreeGates(u, hardware))
  }
}
