/** The OpenGL enumeration values that the modelled code switches on (values as in gl.h). */
module Gl {

  const FALSE: nat := 0

  // Component types of vertex attributes.
  const BYTE: nat := 0x1400
  const UNSIGNED_BYTE: nat := 0x1401
  const SHORT: nat := 0x1402
  const UNSIGNED_SHORT: nat := 0x1403
  const INT: nat := 0x1404
  const UNSIGNED_INT: nat := 0x1405
  const FLOAT: nat := 0x1406
  const DOUBLE: nat := 0x140A
  const HALF_FLOAT: nat := 0x140B
  const FIXED: nat := 0x140C

  // Shader stages.
  const FRAGMENT_SHADER: nat := 0x8B30
  const VERTEX_SHADER: nat := 0x8B31
  const GEOMETRY_SHADER: nat := 0x8DD9
  const TESS_EVALUATION_SHADER: nat := 0x8E87
  const TESS_CONTROL_SHADER: nat := 0x8E88
  const COMPUTE_SHADER: nat := 0x91B9
}
