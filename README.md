# KingObjectPool — a verified Dafny model

This project models `KingObjectPool<T>`, the generic object pool of the
KingNetwork shared library. The pool wraps a stack of objects. It has a
get-only `Size`, set by the constructor, a live `Count` (the number of
objects on the stack), `Pop`, which removes and returns the top object, and
`Push`, which places an object on top.

The model has two modules:

- `PoolSpec` (`pool_spec.dfy`) describes the pool as a value: its size and
  the objects it holds, bottom first. `Create`, `Push` and `Pop` describe
  single calls. `PushAll`, `PopN` and `Run` describe sequences of calls. The
  lemmas state LIFO order, how `Count` changes, that `Size` never changes,
  when `Pop` fails, and that `Size` bounds nothing.
- `Shared` (`king_object_pool.dfy`) holds the class `KingObjectPool<T>`.
  `Size` is a `const`, so it cannot change after construction. The backing
  stack is an array plus a count, and a ghost `Contents` sequence gives the
  objects held. Each method's postcondition ties the new state and the
  result to the `PoolSpec` function of the old state.

Two behaviours of the code are followed as written:

- The constructor does not fill the pool. `Size` is only the initial
  capacity of the backing stack, so a new pool is empty.
- `Push` never checks `Size`, so `Count` can exceed `Size`. The model has no
  `Count <= Size` invariant, and `CountCanExceedSize` proves that it can be
  broken.

Error paths:

- `Pop` on an empty pool throws in the source, because the stack's own `Pop`
  throws. Here it returns `Err(StackEmpty)` and changes nothing.
- A negative size makes the stack constructor throw. `PoolSpec.Create`
  returns `Err(NegativeCapacity)` in that case. The class constructor
  requires `0 <= size`, since a Dafny constructor cannot fail.

## Model

| member | source | states |
|---|---|---|
| `Shared.KingObjectPool.constructor` | src/KingNetwork.Shared/KingObjectPool.cs:38-42 | `Size` is the argument, the pool holds nothing, and the backing stack's initial capacity equals the argument; the state equals `PoolSpec.Create(size)` |
| `Shared.KingObjectPool.Count` | src/KingNetwork.Shared/KingObjectPool.cs:29 | `Count` is the number of objects currently held by the stack |
| `Shared.KingObjectPool.Pop` | src/KingNetwork.Shared/KingObjectPool.cs:51-55 | on a non-empty pool, returns the top object and removes it, leaving the rest as they were; on an empty pool, fails with `StackEmpty` and changes nothing |
| `Shared.KingObjectPool.Push` | src/KingNetwork.Shared/KingObjectPool.cs:61-65 | appends the object on top of the unchanged earlier contents, with no check against `Size`; the backing array grows when full |
| `Shared.PushPastSizeThenDrain` | src/KingNetwork.Shared/KingObjectPool.cs:38-65 | a pool of size 0 accepts two objects (Count 2 > Size 0), returns them last in, first out, and then fails with `StackEmpty` |
| `PoolSpec.CreateEmpty` | src/KingNetwork.Shared/KingObjectPool.cs:38-42 | creation fails exactly when the size is negative; otherwise the pool keeps that size and holds nothing |
| `PoolSpec.PushOnTop` | src/KingNetwork.Shared/KingObjectPool.cs:61-65 | `Push` adds exactly one to `Count`, puts the object on top, and keeps every earlier object in place and in order; `Size` is unchanged |
| `PoolSpec.PopOffTop` | src/KingNetwork.Shared/KingObjectPool.cs:51-55 | `Pop` fails exactly when `Count` is 0, with `StackEmpty`; otherwise it returns the top object, takes exactly one from `Count`, and keeps the rest and `Size` unchanged |
| `PoolSpec.PushThenPop` | src/KingNetwork.Shared/KingObjectPool.cs:51-65 | `Pop` right after `Push(x)` returns `x` and restores the previous pool |
| `PoolSpec.PopThenPush` | src/KingNetwork.Shared/KingObjectPool.cs:51-65 | pushing back the object a `Pop` returned restores the pool |
| `PoolSpec.PushAllAppends` | src/KingNetwork.Shared/KingObjectPool.cs:61-65 | pushing a sequence of objects stacks them in order above the existing contents |
| `PoolSpec.ReversedAt` | src/KingNetwork.Shared/KingObjectPool.cs:51-55 | position k of the reversed sequence holds the element k places from the end, so "popped in reverse order" means top first |
| `PoolSpec.PopNTakesTop` | src/KingNetwork.Shared/KingObjectPool.cs:51-55 | popping k times removes the top k objects, returns them top first, and leaves the objects below untouched |
| `PoolSpec.LastInFirstOut` | src/KingNetwork.Shared/KingObjectPool.cs:51-65 | objects pushed in order `xs` are popped back in reverse order, and the pool ends exactly as before the pushes |
| `PoolSpec.ExhaustedAfterCountPops` | src/KingNetwork.Shared/KingObjectPool.cs:51-55 | a pool holding k objects yields all k, top first, and the (k+1)-th pop fails with `StackEmpty` |
| `PoolSpec.PopNThenFails` | src/KingNetwork.Shared/KingObjectPool.cs:53-54 | once a run of pops has emptied the pool, one more pop fails with `StackEmpty` |
| `PoolSpec.RunKeepsSize` | src/KingNetwork.Shared/KingObjectPool.cs:24 | after any sequence of pushes and pops that does not fail, `Size` is what it was |
| `PoolSpec.RunCount` | src/KingNetwork.Shared/KingObjectPool.cs:29 | after any sequence of calls that does not fail, `Count` is the starting count plus the number of pushes minus the number of pops |
| `PoolSpec.RunFailsOnlyOnEmptyPop` | src/KingNetwork.Shared/KingObjectPool.cs:51-65 | the only way a call sequence can fail is `StackEmpty`, a pop issued on an empty pool; pushes never fail |
| `PoolSpec.RunWithoutOverdrawSucceeds` | src/KingNetwork.Shared/KingObjectPool.cs:51-65 | a call sequence with no more pops than the pool holds at the start never fails |
| `PoolSpec.CountCanExceedSize` | src/KingNetwork.Shared/KingObjectPool.cs:38-65 | pushing more objects than `Size` into a new pool leaves `Count` above `Size` |

## Left out

- The `lock (_pool)` around `Pop` and `Push` serialises concurrent callers. The model is a single-threaded, sequential object.
- Shared.KingObjectPool.Push: does not model the failure of the stack when its backing array cannot grow further (near 2^31 elements); `Count` is an unbounded `nat` here.
- The growth policy of the backing array is that of the platform's `Stack<T>` (double the length, four slots when empty). That class is not part of this model, so this policy is an assumption. Nothing the pool promises depends on it.
- Shared.KingObjectPool.Pop: does not model the stack clearing the vacated slot. That slot lies outside `Contents`, so nothing observable changes.
- Shared.KingObjectPool.constructor: requires `0 <= size` instead of failing, because a Dafny constructor cannot fail; the failing case is modelled by `PoolSpec.Create`.
- Socket listeners, the client connection class, the client interface and the test entry point are not part of this model. They are asynchronous network I/O and have no standalone logic.
