/** The object pool class of the shared library: a thin wrapper over a
    stack of objects. The backing stack is kept as an array plus a count,
    the array's initial length being the size given to the constructor
    (that size is only a capacity hint). Every method is proved against the
    value-level functions of module PoolSpec. */
module Shared {
  import PoolSpec

  /** The 32-bit signed `int` of the constructor argument and of `Size`. */
  newtype int32 = x: int | -0x8000_0000 <= x < 0x8000_0000

  class KingObjectPool<T(0)> {
    /** The size given to the constructor; get-only, so it never changes. */
    const Size: int32

    /** The pooled objects, bottom first, the top one last. */
    ghost var Contents: seq<T>

    // The backing stack: its slots and how many of them are in use.
    var data: array<T>
    var count: nat

    ghost predicate Valid()
      reads this, data
    {
      count <= data.Length && Contents == data[..count]
    }

    /** The pool as a value of the specification. */
    ghost function Model(): PoolSpec.Pool<T>
      reads this
    {
      PoolSpec.Pool(Size as int, Contents)
    }

    /** Stores the size and creates an empty backing stack whose initial
        capacity is that size; nothing is pre-allocated into the pool. */
    constructor (size: int32)
      requires 0 <= size
      ensures Valid() && fresh(data)
      ensures Size == size && Contents == []
      ensures data.Length == size as int
      ensures PoolSpec.Create<T>(size as int) == PoolSpec.Ok(Model())
    {
      Size := size;
      data := new T[size];
      count := 0;
      Contents := [];
    }

    /** The number of objects currently held by the backing stack. */
    function Count(): (n: nat)
      reads this, data
      requires Valid()
      ensures n == |Contents| == PoolSpec.Count(Model())
    {
      count
    }

    /** Removes and returns the top object; on an empty pool it fails with
        StackEmpty and changes nothing. */
    method Pop() returns (r: PoolSpec.Result<T>)
      requires Valid()
      modifies this
      ensures Valid() && data == old(data)
      ensures PoolSpec.Pop(old(Model())).Err? ==>
                r == PoolSpec.Err(PoolSpec.StackEmpty) && Model() == old(Model())
      ensures PoolSpec.Pop(old(Model())).Ok? ==>
                r == PoolSpec.Ok(PoolSpec.Pop(old(Model())).value.0) &&
                Model() == PoolSpec.Pop(old(Model())).value.1
    {
      if count == 0 {
        r := PoolSpec.Err(PoolSpec.StackEmpty);
      } else {
        count := count - 1;
        r := PoolSpec.Ok(data[count]);
        Contents := Contents[..count];
      }
    }

    /** Places `obj` on top. There is no check against `Size`: when the
        backing array is full it is replaced by one twice as long (four
        slots when it had none), so the pool can hold more than `Size`. */
    method Push(obj: T)
      requires Valid()
      modifies this, data
      ensures Valid() && data.Length >= old(data.Length)
      ensures old(count) < old(data.Length) ==> data == old(data)
      ensures old(count) == old(data.Length) ==> fresh(data)
      ensures Model() == PoolSpec.Push(old(Model()), obj)
    {
      if count == data.Length {
        var bigger := new T[if data.Length == 0 then 4 else 2 * data.Length];
        forall i | 0 <= i < count {
          bigger[i] := data[i];
        }
        data := bigger;
      }
      data[count] := obj;
      count := count + 1;
      Contents := Contents + [obj];
    }
  }

  /** A caller's view: a pool of size 0 accepts two objects, hands them back
      last in first out, and then reports that it is empty. */
  method PushPastSizeThenDrain<T(0)>(x: T, y: T)
    returns (size: int32, held: nat,
             first: PoolSpec.Result<T>, second: PoolSpec.Result<T>, third: PoolSpec.Result<T>)
    ensures size == 0 && held == 2
    ensures first == PoolSpec.Ok(y) && second == PoolSpec.Ok(x)
    ensures third == PoolSpec.Err(PoolSpec.StackEmpty)
  {
    var pool := new KingObjectPool<T>(0);
    pool.Push(x);
    pool.Push(y);
    size, held := pool.Size, pool.Count();
    first := pool.Pop();
    second := pool.Pop();
    third := pool.Pop();
  }
}
