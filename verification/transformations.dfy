/** Rendering a one-qubit unitary's Euler triple as a Z-?-Z gate list. Only
    the list construction is modelled: which gates, in which order, with
    which angle expression. */
module Transformations {
  import opened Gates

  /** `np.pi / 2` as the double it evaluates to. No property proved here
      depends on its value. */
  const HALF_PI: real := 1.5707963267948966

  /** How many of the three Euler angles are non-zero: the number of gates
      each renderer emits. */
  function EmittedCount(u: OneQubitUnitary): nat {
    (if u.lam != 0.0 then 1 else 0) + (if u.theta != 0.0 then 1 else 0) + (if u.phi != 0.0 then 1 else 0)
  }

  /** `u_to_zyz_gates`: `Z(lam)`, `Y(theta)`, `Z(phi)`, each emitted exactly
      when its angle is non-zero (an exact comparison), all on `u.index`. */
  function ZyzGates(u: OneQubitUnitary): (r: seq<Gate>)
    ensures |r| == EmittedCount(u) <= 3
    ensures forall g <- r :: (g.Y? || g.Z?) && g.qubitIndex == u.index
    ensures u.lam != 0.0 ==> r[0] == Z(u.index, u.lam)
    ensures u.theta != 0.0 ==> r[if u.lam != 0.0 then 1 else 0] == Y(u.index, u.theta)
    ensures u.phi != 0.0 ==> r[|r| - 1] == Z(u.index, u.phi)
    ensures u.theta == 0.0 ==> forall g <- r :: g.Z?
  {
    var gates := [];
    var gates := if u.lam != 0.0 then gates + [Z(u.index, u.lam)] else gates;
    var gates := if u.theta != 0.0 then gates + [Y(u.index, u.theta)] else gates;
    var gates := if u.phi != 0.0 then gates + [Z(u.index, u.phi)] else gates;
    gates
  }

  /** `u_to_zxz_gates`: `Z(lam - π/2)`, then a Y gate (not an X gate) with
      angle `theta`, then `Z(phi + π/2)`, each emitted exactly when its
      angle is non-zero, all on `u.index`. */
  function ZxzGates(u: OneQubitUnitary): (r: seq<Gate>)
    ensures |r| == EmittedCount(u) <= 3
    ensures forall g <- r :: (g.Y? || g.Z?) && g.qubitIndex == u.index
    ensures u.lam != 0.0 ==> r[0] == Z(u.index, u.lam - HALF_PI)
    ensures u.theta != 0.0 ==> r[if u.lam != 0.0 then 1 else 0] == Y(u.index, u.theta)
    ensures u.phi != 0.0 ==> r[|r| - 1] == Z(u.index, u.phi + HALF_PI)
    ensures u.theta == 0.0 ==> forall g <- r :: g.Z?
  {
    var gates := [];
    var gates := if u.lam != 0.0 then gates + [Z(u.index, u.lam - HALF_PI)] else gates;
    var gates := if u.theta != 0.0 then gates + [Y(u.index, u.theta)] else gates;
    var gates := if u.phi != 0.0 then gates + [Z(u.index, u.phi + HALF_PI)] else gates;
    gates
  }

  /** The two renderings have the same shape: position by position the same
      gate class on the same qubit; the Y gates agree exactly and the Z gates
      differ by ∓π/2 (first) and ±π/2 (last). */
  lemma {:induction false} RenderingsHaveSameShape(u: OneQubitUnitary)
    ensures |ZxzGates(u)| == |ZyzGates(u)|
    ensures forall k :: 0 <= k < |ZxzGates(u)| ==>
      && Letter(ZxzGates(u)[k]) == Letter(ZyzGates(u)[k])
      && ZxzGates(u)[k].qubitIndex == ZyzGates(u)[k].qubitIndex
      && (ZxzGates(u)[k].Y? ==> ZxzGates(u)[k] == ZyzGates(u)[k])
    ensures u.lam != 0.0 ==> ZxzGates(u)[0].theta == ZyzGates(u)[0].theta - HALF_PI
    ensures u.phi != 0.0 ==> ZxzGates(u)[|ZxzGates(u)| - 1].theta == ZyzGates(u)[|ZyzGates(u)| - 1].theta + HALF_PI
  {
    var a, b := ZxzGates(u), ZyzGates(u);
    forall k | 0 <= k < |a|
      ensures Letter(a[k]) == Letter(b[k]) && a[k].qubitIndex == b[k].qubitIndex
      ensures a[k].Y? ==> a[k] == b[k]
    {
      // position k holds the lam gate, the theta gate or the phi gate, in both lists
      if u.lam != 0.0 && k == 0 {
      } else if u.theta != 0.0 && k == (if u.lam != 0.0 then 1 else 0) {
      } else {
        assert u.phi != 0.0 && k == |a| - 1;
      }
    }
  }
}
