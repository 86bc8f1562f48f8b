/**
 * The growable buffers the polygonizer appends to, `&mut Vec<Vec3>` and
 * `&mut Vec<u32>`: each a class whose contents are a sequence that `Push`
 * extends at the end.
 */
module Buffers {

  /** Rust's `u32`. */
  type u32 = x: int | 0 <= x < 0x1_0000_0000

  const U32Limit: nat := 0x1_0000_0000

  datatype Vec3 = Vec3(x: real, y: real, z: real)

  /** The vertex buffer, `Vec<Vec3>`. */
  class VertexBuffer {
    var items: seq<Vec3>

    constructor ()
      ensures items == []
    {
      items := [];
    }

    /** `Vec::push`: appends one vertex and keeps everything before it. */
    method Push(v: Vec3)
      modifies this
      ensures items == old(items) + [v]
    {
      items := items + [v];
    }
  }

  /** The index buffer, `Vec<u32>`. */
  class IndexBuffer {
    var items: seq<u32>

    constructor ()
      ensures items == []
    {
      items := [];
    }

    /** `Vec::push`: appends one index and keeps everything before it. */
    method Push(n: u32)
      modifies this
      ensures items == old(items) + [n]
    {
      items := items + [n];
    }
  }
}
