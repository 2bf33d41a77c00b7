/** Three-component vectors over the reals, the explicit-Euler displacement every
    entity uses, and axis-aligned boxes. Floating point is modelled by real
    arithmetic. */
module Vectors {

  datatype Vec3 = Vec3(x: real, y: real, z: real)

  function Add(a: Vec3, b: Vec3): Vec3 {
    Vec3(a.x + b.x, a.y + b.y, a.z + b.z)
  }

  /** Model.move: the position advanced by direction * speed * dt, per component. */
  function Displace(p: Vec3, direction: Vec3, speed: real, dt: real): Vec3 {
    Vec3(p.x + direction.x * speed * dt,
         p.y + direction.y * speed * dt,
         p.z + direction.z * speed * dt)
  }

  /** Moving by dt1 and then by dt2 lands where one move by dt1 + dt2 lands: the
      integration has constant velocity and no acceleration. */
  lemma DisplaceComposes(p: Vec3, direction: Vec3, speed: real, dt1: real, dt2: real)
    ensures Displace(Displace(p, direction, speed, dt1), direction, speed, dt2)
         == Displace(p, direction, speed, dt1 + dt2)
  {
    var v := Vec3(direction.x * speed, direction.y * speed, direction.z * speed);
    assert direction.x * speed * dt1 + direction.x * speed * dt2 == v.x * (dt1 + dt2);
    assert direction.y * speed * dt1 + direction.y * speed * dt2 == v.y * (dt1 + dt2);
    assert direction.z * speed * dt1 + direction.z * speed * dt2 == v.z * (dt1 + dt2);
  }

  /** An axis-aligned box given by its two corners. */
  datatype Box = Box(min: Vec3, max: Vec3)

  function Translate(b: Box, offset: Vec3): Box {
    Box(Add(b.min, offset), Add(b.max, offset))
  }
}
