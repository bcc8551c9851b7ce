/** Vertex attribute formats (opengl/draw.hpp): the per-type traits table,
    the classification of GL component types into the three attribute
    families (single-precision float, double, integer), the format
    constructors of each family, the overload set `attribute<type>` that
    picks one, and the buffer binding of `static_vertex_vector_format`. */
module Draw {
  import opened Gl

  /** The types `attribute_traits` is specialised for. */
  datatype AttributeType = Float | Vec2 | Vec3 | Vec4 | Double | DVec2 | DVec4 | IVec2 | IVec4

  datatype Traits = Traits(size: nat, glType: nat)

  /** The scalar element of each type, by its name: `float` and `vecN`,
      `double` and `dvecN`, `ivecN`. */
  datatype Element = F32 | F64 | I32

  function ElementOf(t: AttributeType): Element {
    match t
    case Float | Vec2 | Vec3 | Vec4 => F32
    case Double | DVec2 | DVec4 => F64
    case IVec2 | IVec4 => I32
  }

  /** The number of components, by the type's name: 1 for a scalar, N for an N-vector. */
  function Components(t: AttributeType): nat {
    match t
    case Float | Double => 1
    case Vec2 | DVec2 | IVec2 => 2
    case Vec3 => 3
    case Vec4 | DVec4 | IVec4 => 4
  }

  /** `attribute_traits<T>`: the component count and the GL component type. */
  function AttributeTraits(t: AttributeType): (tr: Traits)
    ensures tr.size == Components(t)
    ensures tr.glType == match ElementOf(t) case F32 => FLOAT case F64 => DOUBLE case I32 => INT
  {
    match t
    case Float => Traits(1, FLOAT)
    case Vec2 => Traits(2, FLOAT)
    case Vec3 => Traits(3, FLOAT)
    case Vec4 => Traits(4, FLOAT)
    case Double => Traits(1, DOUBLE)
    case DVec2 => Traits(2, DOUBLE)
    case DVec4 => Traits(4, DOUBLE)
    case IVec2 => Traits(2, INT)
    case IVec4 => Traits(4, INT)
  }

  /** `is_f32`: the component types read through `glVertexArrayAttribFormat`. */
  predicate IsF32(glType: nat) {
    glType == FLOAT || glType == HALF_FLOAT || glType == FIXED
  }

  /** `is_f64`: the component type read through `glVertexArrayAttribLFormat`. */
  predicate IsF64(glType: nat) {
    glType == DOUBLE
  }

  /** `is_int`: the component types read through `glVertexArrayAttribIFormat`. */
  predicate IsInt(glType: nat) {
    glType == BYTE || glType == SHORT || glType == INT ||
    glType == UNSIGNED_BYTE || glType == UNSIGNED_SHORT || glType == UNSIGNED_INT
  }

  /** No component type belongs to two families. */
  lemma FamiliesDisjoint(glType: nat)
    ensures !(IsF32(glType) && IsF64(glType))
    ensures !(IsF32(glType) && IsInt(glType))
    ensures !(IsF64(glType) && IsInt(glType))
  {
  }

  datatype F32AttributeFormat = F32AttributeFormat(location: nat, size: nat, glType: nat, normalized: nat, offset: int)
  datatype F64AttributeFormat = F64AttributeFormat(location: nat, size: nat, offset: int)
  datatype IntAttributeFormat = IntAttributeFormat(location: nat, size: nat, glType: nat, offset: int)

  /** `f32_attribute<type>`: location and offset as given, size and type from the traits. */
  function F32Attribute(t: AttributeType, location: nat, offset: int := 0, normalized: nat := FALSE): (f: F32AttributeFormat)
    ensures f.location == location && f.offset == offset && f.normalized == normalized
    ensures Traits(f.size, f.glType) == AttributeTraits(t)
  {
    var tr := AttributeTraits(t);
    F32AttributeFormat(location, tr.size, tr.glType, normalized, offset)
  }

  /** `f64_attribute<type>`: only declared for types whose traits say GL_DOUBLE. */
  function F64Attribute(t: AttributeType, location: nat, offset: int := 0): (f: F64AttributeFormat)
    requires AttributeTraits(t).glType == DOUBLE
    ensures f.location == location && f.offset == offset && f.size == AttributeTraits(t).size
  {
    F64AttributeFormat(location, AttributeTraits(t).size, offset)
  }

  /** `int_attribute<type>`. */
  function IntAttribute(t: AttributeType, location: nat, offset: int := 0): (f: IntAttributeFormat)
    ensures f.location == location && f.offset == offset
    ensures Traits(f.size, f.glType) == AttributeTraits(t)
  {
    var tr := AttributeTraits(t);
    IntAttributeFormat(location, tr.size, tr.glType, offset)
  }

  datatype AttributeFormat =
    | F32Format(f32: F32AttributeFormat)
    | F64Format(f64: F64AttributeFormat)
    | IntFormat(i32: IntAttributeFormat)

  datatype Family = F32Family | F64Family | IntFamily

  /** The overloads of `attribute<type>` whose `requires` holds for `t`. */
  function ViableOverloads(t: AttributeType): set<Family> {
    var g := AttributeTraits(t).glType;
    (if IsF64(g) then {F64Family} else {}) +
    (if IsF32(g) then {F32Family} else {}) +
    (if IsInt(g) then {IntFamily} else {})
  }

  /** Overload resolution of `attribute<type>` is never ambiguous and never fails:
      exactly one overload is viable, the one of the type's element. */
  lemma ExactlyOneOverload(t: AttributeType)
    ensures ViableOverloads(t) == {match ElementOf(t) case F32 => F32Family case F64 => F64Family case I32 => IntFamily}
  {
  }

  /** `attribute<type>(location, offset)`: the format of the only viable
      overload, with `normalized` left at GL_FALSE. */
  function Attribute(t: AttributeType, location: nat, offset: int := 0): (a: AttributeFormat)
    ensures a.F32Format? <==> F32Family in ViableOverloads(t)
    ensures a.F64Format? <==> F64Family in ViableOverloads(t)
    ensures a.IntFormat? <==> IntFamily in ViableOverloads(t)
    ensures a.F32Format? ==> a.f32 == F32Attribute(t, location, offset, FALSE)
    ensures a.F64Format? ==> AttributeTraits(t).glType == DOUBLE && a.f64 == F64Attribute(t, location, offset)
    ensures a.IntFormat? ==> a.i32 == IntAttribute(t, location, offset)
  {
    var g := AttributeTraits(t).glType;
    if IsF64(g) then F64Format(F64Attribute(t, location, offset))
    else if IsF32(g) then F32Format(F32Attribute(t, location, offset))
    else IntFormat(IntAttribute(t, location, offset))
  }

  /** `static_vertex_vector_format<type, ...>`: a vertex buffer binding whose
      stride is the size of one `value_type` element; `assign` points it at a
      vector's buffer, starting at element `first`. */
  class StaticVertexVectorFormat {
    var buffer: nat
    var offset: int
    const stride: nat
    const attributes: seq<AttributeFormat>

    /** `valueSize` is `sizeof(value_type)`. */
    constructor (valueSize: nat, attributes: seq<AttributeFormat>)
      ensures buffer == 0 && offset == 0
      ensures stride == valueSize && this.attributes == attributes
    {
      buffer := 0;
      offset := 0;
      stride := valueSize;
      this.attributes := attributes;
    }

    /** `assign(v, first)`: `vectorBuffer` is the native handle of `v`'s buffer. */
    method Assign(vectorBuffer: nat, first: nat := 0)
      modifies this
      ensures buffer == vectorBuffer
      ensures offset == first * stride
    {
      buffer := vectorBuffer;
      offset := first * stride;
    }
  }
}
