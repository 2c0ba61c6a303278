// Shared value types: optional values and results that carry the source's exceptions.
module Prelude {

  datatype Option<+T> = None | Some(value: T)

  datatype Result<+T, +E> = Success(value: T) | Failure(error: E)

  function Min(a: int, b: int): int {
    if a <= b then a else b
  }

  function Max(a: int, b: int): int {
    if a >= b then a else b
  }

  // What holds of nothing, and goes on holding as items are added at the end, holds of any items.
  lemma {:induction false} Growing<T(!new)>(items: seq<T>, holds: seq<T> -> bool)
    requires holds([])
    requires forall front, last {:trigger holds(front + [last])} :: holds(front) ==> holds(front + [last])
    ensures holds(items)
  {
    if items != [] {
      var front, last := items[..|items| - 1], items[|items| - 1];
      Growing(front, holds);
      assert front + [last] == items;
      assert holds(front + [last]);
    }
  }
}
