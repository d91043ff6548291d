/** The dipole model: the force and torque readout for the dipole at a pixel.

    The visualizer's simplification is kept: the force is the local field
    magnitude times the moment, and the torque uses the dipole's own angle
    rather than the angle between the dipole and the field. The magnitude
    `sqrt(Ex^2 + Ey^2)` is the parameter `norm` and `sin(radians(angle))`
    the parameter `sinDeg`. */
module Dipole {
  import opened Charges
  import opened Field

  datatype Reading = Reading(force: real, torque: real, field: Vec)

  /** The readout for a dipole of moment `p` and angle `angle` (in degrees) at `pos`. */
  function ForceAndMoment(cs: seq<Charge>, dist: (int, int) -> real, norm: (real, real) -> real,
                          sinDeg: int -> real, pos: Point, p: int, angle: int): (r: Reading)
    ensures r.field == FieldAt(cs, pos.x, pos.y, dist)
    ensures norm(r.field.ex, r.field.ey) == 0.0 ==> r.force == 0.0 && r.torque == 0.0
    ensures sinDeg(angle) == 0.0 ==> r.torque == 0.0
    ensures sinDeg(angle) == 1.0 ==> r.torque == r.force
  {
    var e := FieldAt(cs, pos.x, pos.y, dist);
    var magnitude := norm(e.ex, e.ey);
    Reading(magnitude * p as real, p as real * magnitude * sinDeg(angle), e)
  }

  /** With no charges placed the field at the dipole vanishes, and so do its
      force and torque, whatever its moment and angle. */
  lemma NoChargesNoForce(dist: (int, int) -> real, norm: (real, real) -> real, sinDeg: int -> real,
                         pos: Point, p: int, angle: int)
    requires norm(0.0, 0.0) == 0.0
    ensures var r := ForceAndMoment([], dist, norm, sinDeg, pos, p, angle);
      r.field == Vec(0.0, 0.0) && r.force == 0.0 && r.torque == 0.0
  {
    EmptyStore(pos.x, pos.y, dist);
  }

  /** The force grows linearly with the moment. */
  lemma ForceProportionalToMoment(cs: seq<Charge>, dist: (int, int) -> real, norm: (real, real) -> real,
                                  sinDeg: int -> real, pos: Point, p: int, angle: int)
    ensures ForceAndMoment(cs, dist, norm, sinDeg, pos, p, angle).force
         == p as real * ForceAndMoment(cs, dist, norm, sinDeg, pos, 1, angle).force
  {
  }
}
