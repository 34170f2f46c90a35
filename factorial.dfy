// The two factorial implementations of the command-line utility: the
// recursive reference definition, the iterative accumulator loop, and the
// recursive evaluation on a call stack of bounded depth.

module Factorial {

  /** The two ways a factorial computation can fail. */
  datatype Error =
    | InvalidArgument(message: string)  // a negative argument (Python's ValueError)
    | StackExhausted                    // the call stack is full (Python's RecursionError)

  datatype Result<T> = Ok(value: T) | Err(error: Error)

  /** The message both implementations raise for a negative argument. */
  const NegativeMessage: string := "n must be non-negative"

  /** The product lo * (lo + 1) * ... * hi of consecutive integers, 1 when the range is empty.
      `ProductRange(1, n)` is the product 1 * 2 * ... * n, n! by definition; it is the
      independent reference against which the recursive definition is checked. */
  function ProductRange(lo: int, hi: int): (p: int)
    ensures lo >= 1 ==> p >= 1
    decreases hi - lo
  {
    if lo > hi then 1 else lo * ProductRange(lo + 1, hi)
  }

  /** Extending a range by its upper end multiplies the product by that end. */
  lemma {:induction false} ProductRangeExtend(lo: int, hi: int)
    requires lo <= hi + 1
    ensures ProductRange(lo, hi + 1) == ProductRange(lo, hi) * (hi + 1)
    decreases hi - lo
  {
    if lo <= hi {
      ProductRangeExtend(lo + 1, hi);
      assert ProductRange(lo, hi + 1) == lo * ProductRange(lo + 1, hi + 1);
    }
  }

  /** The recursive implementation: rejects a negative n, answers 1 for n in {0, 1}
      and otherwise multiplies n by the factorial of n - 1 (an error of the inner
      call would propagate unchanged). */
  function FactorialRecursive(n: int): (r: Result<int>)
    ensures r.Err? <==> n < 0
    ensures r.Err? ==> r.error == InvalidArgument(NegativeMessage)
    ensures r.Ok? ==> r.value >= 1
    decreases n
  {
    if n < 0 then Err(InvalidArgument(NegativeMessage))
    else if n == 0 || n == 1 then Ok(1)
    else
      match FactorialRecursive(n - 1)
      case Ok(v) => Ok(n * v)
      case Err(e) => Err(e)
  }

  /** The product 1 * ... * n satisfies the equations the recursive implementation
      is written from: it is 1 for n in {0, 1}, and n times the product 1 * ... * (n - 1)
      from n = 2 on. */
  lemma ProductRangeEquations(n: int)
    requires n >= 0
    ensures n <= 1 ==> ProductRange(1, n) == 1
    ensures n >= 2 ==> ProductRange(1, n) == n * ProductRange(1, n - 1)
  {
    if n >= 2 {
      ProductRangeExtend(1, n - 1);
    }
  }

  /** The recursive implementation computes the product of 1..n, n! by definition. */
  lemma {:induction false} RecursiveIsProduct(n: int)
    requires n >= 0
    ensures FactorialRecursive(n) == Ok(ProductRange(1, n))
    decreases n
  {
    if n >= 2 {
      RecursiveIsProduct(n - 1);
      ProductRangeExtend(1, n - 1);
    }
  }

  /** The iterative implementation: rejects a negative n, then multiplies an
      accumulator that starts at 1 by every i in range(2, n + 1). It returns the
      same result as the recursive implementation on every input. */
  method FactorialIterative(n: int) returns (r: Result<int>)
    ensures r == FactorialRecursive(n)
    ensures n < 0 ==> r == Err(InvalidArgument(NegativeMessage))
    ensures n >= 0 ==> r == Ok(ProductRange(1, n)) && r.value >= 1
  {
    if n < 0 {
      return Err(InvalidArgument(NegativeMessage));
    }
    var result := 1;
    var i := 2;
    while i <= n
      invariant 2 <= i && (i <= n + 1 || i == 2)
      invariant result == FactorialRecursive(i - 1).value
    {
      result := result * i;
      i := i + 1;
    }
    r := Ok(result);
    RecursiveIsProduct(n);
  }

  /** The number of nested calls of the recursive implementation on n (the call
      on n itself included): n for n >= 2, otherwise 1. */
  function CallDepth(n: int): (d: nat)
  {
    if n <= 1 then 1 else n
  }

  /** The recursive implementation run on a call stack that admits `frames` more
      nested calls: a call made with no frame left raises StackExhausted,
      which propagates out of every enclosing call. */
  function FactorialRecursiveInStack(n: int, frames: nat): (r: Result<int>)
    ensures r.Err? ==> r.error == StackExhausted || r.error == InvalidArgument(NegativeMessage)
    decreases frames
  {
    if frames == 0 then Err(StackExhausted)
    else if n < 0 then Err(InvalidArgument(NegativeMessage))
    else if n == 0 || n == 1 then Ok(1)
    else
      match FactorialRecursiveInStack(n - 1, frames - 1)
      case Ok(v) => Ok(n * v)
      case Err(e) => Err(e)
  }

  /** On a bounded stack the recursive implementation either gives the unbounded
      result, exactly when its call depth fits, or fails with StackExhausted. */
  lemma {:induction false} InStackAgrees(n: int, frames: nat)
    ensures FactorialRecursiveInStack(n, frames)
         == if CallDepth(n) <= frames then FactorialRecursive(n) else Err(StackExhausted)
    decreases frames
  {
    if frames > 0 && n >= 2 {
      InStackAgrees(n - 1, frames - 1);
    }
  }
}
