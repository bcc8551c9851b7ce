/** Ownership of OpenGL object names.

    `Identifier` is `basic_identifier<GLuint>` (opengl/resources/defaults.hpp)
    and the older `identifier<T>` (opengl/defaults.hpp): a plain wrapper
    around one native handle. `UniqueResource` is the move-only RAII owner
    `unique_resource` and the older `unique`: it acquires a handle from a
    factory, refuses an invalid one, hands it on when moved and destroys it
    when it dies. Handles are GLuint names; 0 names no object. */
module Resources {
  import opened Wrappers

  datatype Ordering = Less | Equal | Greater

  class Identifier {
    var handle: nat

    /** The defaulted constructor: the handle is value-initialised to 0. */
    constructor Default()
      ensures handle == 0
    {
      handle := 0;
    }

    /** The explicit constructor from a native handle. */
    constructor (value: nat)
      ensures handle == value
    {
      handle := value;
    }

    function NativeHandle(): (h: nat)
      reads this
      ensures h == handle
    {
      handle
    }

    /** `swap`: exchanges the handles of two identifiers (a no-op on itself). */
    method Swap(other: Identifier)
      modifies this, other
      ensures handle == old(other.handle) && other.handle == old(handle)
    {
      var h := handle;
      handle := other.handle;
      other.handle := h;
    }

    /** `reset`: forget the handle. */
    method Reset()
      modifies this
      ensures handle == 0
    {
      handle := 0;
    }
  }

  /** The defaulted `operator<=>`: identifiers compare as their handles do. */
  function Compare(x: Identifier, y: Identifier): (c: Ordering)
    reads x, y
    ensures c == Equal <==> x.handle == y.handle
    ensures c == Less <==> x.handle < y.handle
    ensures c == Greater <==> y.handle < x.handle
  {
    if x.handle < y.handle then Less
    else if x.handle == y.handle then Equal
    else Greater
  }

  /** Swapping twice gives both identifiers back their handles. */
  method SwapTwice(a: Identifier, b: Identifier)
    modifies a, b
    ensures a.handle == old(a.handle) && b.handle == old(b.handle)
  {
    a.Swap(b);
    a.Swap(b);
  }

  /** What construction throws when the factory's handle is not valid. */
  datatype AcquisitionError = ResourceAcquisitionError(message: string)

  const ACQUISITION_MESSAGE: string := "Failed to acquire OpenGL resource."

  class UniqueResource {
    var handle: nat

    constructor Of(created: nat)
      ensures handle == created
    {
      handle := created;
    }

    /** Construction: keep the factory's handle if `valid` accepts it, throw otherwise.
        `create` and `valid` are the resource base's foreign calls, so the
        created handle and the validity oracle are parameters. */
    static method Acquire(created: nat, valid: nat -> bool)
      returns (r: Result<UniqueResource, AcquisitionError>)
      ensures r.Success? <==> valid(created)
      ensures r.Success? ==> fresh(r.value) && r.value.handle == created
      ensures r.Failure? ==> r.error == ResourceAcquisitionError(ACQUISITION_MESSAGE)
    {
      if valid(created) {
        var u := new UniqueResource.Of(created);
        return Success(u);
      }
      return Failure(ResourceAcquisitionError(ACQUISITION_MESSAGE));
    }

    /** Move construction: take over the handle of `other` and reset it to 0. */
    constructor Move(other: UniqueResource)
      modifies other
      ensures handle == old(other.handle) && other.handle == 0
    {
      handle := other.handle;
      new;
      other.handle := 0;
    }

    /** Move assignment: swap handles, so the old handle of `this` is
        destroyed later by `other`. */
    method MoveAssign(other: UniqueResource)
      modifies this, other
      ensures handle == old(other.handle) && other.handle == old(handle)
    {
      var h := handle;
      handle := other.handle;
      other.handle := h;
    }

    /** The destructor: the handle it passes to the base's `destroy`
        (which silently ignores 0). */
    method Destroy() returns (destroyed: nat)
      ensures destroyed == handle
    {
      destroyed := handle;
    }
  }

  /** No two distinct live objects hold the same non-zero handle. */
  ghost predicate Unshared(rs: set<UniqueResource>)
    reads rs
  {
    forall a, b :: a in rs && b in rs && a != b && a.handle != 0 ==> a.handle != b.handle
  }

  /** A fresh object acquired from a name that no live object holds (or handle 0,
      which is never shared) keeps handles unshared. */
  method AcquireAmong(rs: set<UniqueResource>, created: nat, valid: nat -> bool)
    returns (r: Result<UniqueResource, AcquisitionError>)
    requires Unshared(rs)
    requires created != 0 ==> forall x :: x in rs ==> x.handle != created
    ensures r.Success? <==> valid(created)
    ensures r.Success? ==> fresh(r.value) && Unshared(rs + {r.value})
  {
    r := UniqueResource.Acquire(created, valid);
  }

  /** Move-constructing a new object out of a live one keeps handles unshared. */
  method MoveConstructAmong(rs: set<UniqueResource>, src: UniqueResource)
    returns (dst: UniqueResource)
    requires src in rs && Unshared(rs)
    modifies src
    ensures fresh(dst) && Unshared(rs + {dst})
    ensures dst.handle == old(src.handle) && src.handle == 0
  {
    dst := new UniqueResource.Move(src);
  }

  /** Move-assigning between live objects keeps handles unshared. */
  method MoveAssignAmong(rs: set<UniqueResource>, dst: UniqueResource, src: UniqueResource)
    requires dst in rs && src in rs && Unshared(rs)
    modifies dst, src
    ensures Unshared(rs)
    ensures dst.handle == old(src.handle) && src.handle == old(dst.handle)
  {
    dst.MoveAssign(src);
  }

  /** Running the destructors of distinct objects whose handles are unshared
      destroys every non-zero handle at most once. */
  method DestroyEach(rs: seq<UniqueResource>) returns (destroyed: seq<nat>)
    requires forall i, j :: 0 <= i < j < |rs| ==> rs[i] != rs[j]
    requires Unshared(set r | r in rs)
    ensures |destroyed| == |rs|
    ensures forall i :: 0 <= i < |rs| ==> destroyed[i] == rs[i].handle
    ensures forall i, j :: 0 <= i < j < |destroyed| && destroyed[i] != 0 ==> destroyed[i] != destroyed[j]
  {
    destroyed := [];
    for i := 0 to |rs|
      invariant |destroyed| == i
      invariant forall k :: 0 <= k < i ==> destroyed[k] == rs[k].handle
    {
      var h := rs[i].Destroy();
      destroyed := destroyed + [h];
    }
    forall i, j | 0 <= i < j < |destroyed| && destroyed[i] != 0
      ensures destroyed[i] != destroyed[j]
    {
      assert rs[i] in (set r | r in rs) && rs[j] in (set r | r in rs);
    }
  }
}
