/** Small value types shared by the game modules. */
module Common {

  datatype Option<+T> = None | Some(value: T)

  /** A point or direction in the game world. */
  datatype Vec3 = Vec3(x: real, y: real, z: real)
  {
    function Add(v: Vec3): Vec3 {
      Vec3(x + v.x, y + v.y, z + v.z)
    }
  }

  function Abs(r: real): (a: real)
    ensures a >= 0.0 && (a == r || a == -r)
  {
    if r < 0.0 then -r else r
  }

  /** Tints used by the game, as the 24-bit hexadecimal colours the source writes. */
  const Cyan: int := 0x00ffff
  const Red: int := 0xff3333
}
