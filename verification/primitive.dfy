/** Compile-time attribute formats (opengl/primitive.hpp): the component-type
    families again (`defaults_to_*`), the format `attribute_projection`
    selects for an attribute type, and the stride of a vertex buffer format. */
module Primitive {
  import opened Gl
  import Draw

  predicate DefaultsToF32(glType: nat) {
    glType == FLOAT || glType == HALF_FLOAT || glType == FIXED
  }

  predicate DefaultsToF64(glType: nat) {
    glType == DOUBLE
  }

  predicate DefaultsToInt(glType: nat) {
    glType == BYTE || glType == SHORT || glType == INT ||
    glType == UNSIGNED_BYTE || glType == UNSIGNED_SHORT || glType == UNSIGNED_INT
  }

  /** The `defaults_to_*` predicates accept the same component types as the
      `is_*` predicates of opengl/draw.hpp, and no type is accepted by two of them. */
  lemma DefaultsAgreeWithDraw(glType: nat)
    ensures DefaultsToF32(glType) == Draw.IsF32(glType)
    ensures DefaultsToF64(glType) == Draw.IsF64(glType)
    ensures DefaultsToInt(glType) == Draw.IsInt(glType)
    ensures !(DefaultsToF32(glType) && DefaultsToF64(glType))
    ensures !(DefaultsToF32(glType) && DefaultsToInt(glType))
    ensures !(DefaultsToF64(glType) && DefaultsToInt(glType))
  {
  }

  /** `basic_attribute_format<l, s, t, offset_functor>`: location, size and type
      as template arguments; `offset` is what the offset functor returns. */
  datatype BasicAttributeFormat = BasicAttributeFormat(location: nat, size: nat, glType: nat, offset: nat)

  /** `basic_f64_attribute_format` requires `t == GL_DOUBLE`; other types cannot instantiate it. */
  type DoubleAttributeFormat = a: BasicAttributeFormat | a.glType == 0x140A
    witness BasicAttributeFormat(0, 1, 0x140A, 0)

  datatype ProjectedFormat =
    | BasicF32(attribute: BasicAttributeFormat, normalized: nat)
    | BasicF64(double: DoubleAttributeFormat)
    | BasicInt(integer: BasicAttributeFormat)
  {
    function Base(): BasicAttributeFormat {
      match this
      case BasicF32(a, _) => a
      case BasicF64(a) => a
      case BasicInt(a) => a
    }
  }

  /** `attribute_projection<value_type, location>(projection)`: the traits of
      the projected member's type `t` decide the format; `projectionOffset` is
      the byte offset of that member, computed in the source from object addresses. */
  function AttributeProjectionOf(t: Draw.AttributeType, location: nat, projectionOffset: nat): (f: ProjectedFormat)
    ensures f.BasicF32? <==> DefaultsToF32(Draw.AttributeTraits(t).glType)
    ensures f.BasicF64? <==> DefaultsToF64(Draw.AttributeTraits(t).glType)
    ensures f.BasicInt? <==> DefaultsToInt(Draw.AttributeTraits(t).glType)
    ensures f.BasicF32? ==> f.normalized == FALSE
    ensures f.Base() == BasicAttributeFormat(location, Draw.AttributeTraits(t).size, Draw.AttributeTraits(t).glType, projectionOffset)
  {
    var traits := Draw.AttributeTraits(t);
    var attribute := BasicAttributeFormat(location, traits.size, traits.glType, projectionOffset);
    if DefaultsToF32(traits.glType) then BasicF32(attribute, FALSE)
    else if DefaultsToF64(traits.glType) then BasicF64(attribute)
    else BasicInt(attribute)
  }

  /** `attribute_projection<value_type, location>()`: the whole value is the
      attribute, so its offset functor returns 0. */
  function AttributeProjection(t: Draw.AttributeType, location: nat): (f: ProjectedFormat)
    ensures f.Base().offset == 0
    ensures f == AttributeProjectionOf(t, location, 0)
  {
    AttributeProjectionOf(t, location, 0)
  }

  /** `basic_vertex_buffer_format<type, attributes...>`; `valueSize` is `sizeof(type)`. */
  datatype VertexBufferFormat = VertexBufferFormat(valueSize: nat, attributes: seq<ProjectedFormat>) {
    function Stride(): (s: nat)
      ensures s == valueSize
    {
      valueSize
    }
  }

  /** `sizeof` of the GLM types the traits table covers (tightly packed components). */
  function SizeOf(t: Draw.AttributeType): nat {
    match t
    case Float => 4
    case Vec2 => 8
    case Vec3 => 12
    case Vec4 => 16
    case Double => 8
    case DVec2 => 16
    case DVec4 => 32
    case IVec2 => 8
    case IVec4 => 16
  }

  /** Bytes per component of a GL component type. */
  function ComponentBytes(glType: nat): nat {
    if glType == DOUBLE then 8 else 4
  }

  /** `vertex_buffer<location, value_type>()`: one attribute that is the whole value. */
  function VertexBuffer(location: nat, t: Draw.AttributeType): (b: VertexBufferFormat)
    ensures b.Stride() == SizeOf(t)
    ensures b.attributes == [AttributeProjection(t, location)]
  {
    VertexBufferFormat(SizeOf(t), [AttributeProjection(t, location)])
  }

  /** In such a buffer consecutive values are packed with no gap: the stride
      is exactly the attribute's size times its component size. */
  lemma SingleAttributeFillsStride(location: nat, t: Draw.AttributeType)
    ensures VertexBuffer(location, t).Stride() ==
      Draw.AttributeTraits(t).size * ComponentBytes(Draw.AttributeTraits(t).glType)
  {
  }
}
