/** The integer geometry of a viewport (opengl/viewport.hpp): an offset and
    a size, both `ivec2` with 32-bit signed components. */
module Viewport {

  newtype int32 = x: int | -0x8000_0000 <= x < 0x8000_0000

  predicate InInt32(x: int) {
    -0x8000_0000 <= x < 0x8000_0000
  }

  datatype IVec2 = IVec2(x: int32, y: int32)
  datatype IVec4 = IVec4(x: int32, y: int32, z: int32, w: int32)

  datatype Viewport = Viewport(offset: IVec2, size: IVec2) {

    /** Conversion to `ivec4`: the offset followed by the size. */
    function ToIVec4(): (v: IVec4)
      ensures v.x == offset.x && v.y == offset.y && v.z == size.x && v.w == size.y
    {
      IVec4(offset.x, offset.y, size.x, size.y)
    }

    function Width(): (w: int32)
      ensures w == size.x
    {
      size.x
    }

    function Height(): (h: int32)
      ensures h == size.y
    {
      size.y
    }

    function Left(): (l: int32)
      ensures l == offset.x
    {
      offset.x
    }

    function Bottom(): (b: int32)
      ensures b == offset.y
    {
      offset.y
    }

    /** `offset.x + size.x` is evaluated in 32-bit signed arithmetic, where overflow is undefined. */
    predicate RightDefined() {
      InInt32(offset.x as int + size.x as int)
    }

    predicate TopDefined() {
      InInt32(offset.y as int + size.y as int)
    }

    /** The right edge: the width measured from the left edge. */
    function Right(): (r: int32)
      requires RightDefined()
      ensures r as int == Left() as int + Width() as int
    {
      offset.x + size.x
    }

    /** The top edge: the height measured from the bottom edge. */
    function Top(): (t: int32)
      requires TopDefined()
      ensures t as int == Bottom() as int + Height() as int
    {
      offset.y + size.y
    }
  }

  // The free functions mirror the members.

  function Width(screen: Viewport): (w: int32)
    ensures w == screen.Width()
  {
    screen.Width()
  }

  function Height(screen: Viewport): (h: int32)
    ensures h == screen.Height()
  {
    screen.Height()
  }

  function Left(screen: Viewport): (l: int32)
    ensures l == screen.Left()
  {
    screen.Left()
  }

  function Right(screen: Viewport): (r: int32)
    requires screen.RightDefined()
    ensures r == screen.Right()
  {
    screen.Right()
  }

  function Top(screen: Viewport): (t: int32)
    requires screen.TopDefined()
    ensures t == screen.Top()
  {
    screen.Top()
  }

  function Bottom(screen: Viewport): (b: int32)
    ensures b == screen.Bottom()
  {
    screen.Bottom()
  }

  /** The `ivec4` conversion loses nothing: it determines the viewport. */
  lemma ToIVec4Injective(a: Viewport, b: Viewport)
    requires a.ToIVec4() == b.ToIVec4()
    ensures a == b
  {
  }

  /** A viewport of non-negative size spans from its left to its right edge
      and from its bottom to its top edge. */
  lemma EdgesOrdered(screen: Viewport)
    requires screen.RightDefined() && screen.TopDefined()
    requires screen.size.x >= 0 && screen.size.y >= 0
    ensures Left(screen) <= Right(screen) && Bottom(screen) <= Top(screen)
  {
  }
}
