# Factorial command-line utility, modelled in Dafny

The utility computes n! in two ways and prints each result. The recursive
implementation rejects a negative n, answers 1 for n in {0, 1}, and otherwise
multiplies n by (n - 1)!. The iterative implementation multiplies an
accumulator, starting at 1, by every i from 2 to n. The runner has three
steps:

- It rejects a negative n up front, with exit code 2.
- It runs the implementations chosen by `--method` (`iterative`,
  `recursive` or `both`). With `both`, Iterative runs first.
- It turns each implementation's failure into a report line. The exit code
  is 0 however the runs end.

Python integers are unbounded, so the model uses Dafny's `int` and needs no
wrap-around. Exceptions become a `Result` with two errors.
`InvalidArgument(message)` is the `ValueError` for a negative n.
`StackExhausted` is the `RecursionError`.

- `factorial.dfy` (module `Factorial`) holds the two implementations.
  `FactorialRecursive` is a recursive function and `FactorialIterative` a
  method with a `while` loop. It also holds `FactorialRecursiveInStack`,
  the recursive implementation on a stack that admits only `frames` more
  nested calls. `ProductRange(1, n)`, the product of 1..n, is the
  independent reference for n!.
- `runner.dfy` (module `Runner`) holds the runner. `Plan` is the dispatch of
  `main` as a pure function: the ordered implementations to run and the exit
  code. `Contain` is how `run_method`'s `except` clauses turn a result into a
  report. `RunMethod` and `Run` are methods that execute one implementation
  and the whole plan.

Two properties of the interpreter are inputs. `frames` is the number of
nested calls the stack still admits when an implementation is called; the
call of either implementation needs one. `maxStrDigits` is the interpreter's
limit on the decimal digits of an integer converted to text. It is 0, meaning
no limit, or at least 640, because the interpreter refuses any other value. The
type `Runner.DigitLimit` holds exactly these values. From Python 3.11 the
default is 4300 digits. A value above the limit
makes the f-string of the report raise `ValueError`, which the generic
`except` turns into an error line. With that default, n! is too long from
n = 1559 on.

## Model

| member | source | states |
|---|---|---|
| `Factorial.FactorialRecursive` | Assignment-1/Assignment-1/task-3.py:15-21 | fails exactly when n < 0, and then with InvalidArgument("n must be non-negative"); every value it returns is at least 1 |
| `Factorial.ProductRangeEquations` | Assignment-1/Assignment-1/task-3.py:19-21 | the independent product 1 * ... * n satisfies the equations the recursion is written from: 1 for n in {0, 1}, and n times the product up to n - 1 for n >= 2 |
| `Factorial.RecursiveIsProduct` | Assignment-1/Assignment-1/task-3.py:15-21 | for every n >= 0 the recursive implementation returns the product 1 * 2 * ... * n |
| `Factorial.FactorialIterative` | Assignment-1/Assignment-1/task-3.py:24-31 | returns the same result as the recursive implementation on every integer: the InvalidArgument error for n < 0, and for n >= 0 the product of 1..n, which is at least 1 |
| `Factorial.FactorialRecursiveInStack` | Assignment-1/Assignment-1/task-3.py:15-21 | on a bounded stack the only failures are stack exhaustion and the negative-argument error |
| `Factorial.InStackAgrees` | Assignment-1/Assignment-1/task-3.py:15-21 | on a bounded stack the recursive implementation gives the unbounded result exactly when its call depth (n for n >= 2, otherwise 1) fits; otherwise it fails with StackExhausted |
| `Runner.Plan` | Assignment-1/Assignment-1/task-3.py:69-82 | n < 0 runs nothing and exits with 2; n >= 0 exits with 0; Iterative runs iff the choice is iterative or both; Recursive runs iff it is recursive or both; with both, Iterative runs before Recursive; nothing runs twice |
| `Runner.DecimalDigits` | Assignment-1/Assignment-1/task-3.py:59-62 | the length d >= 1 of the decimal text of the printed value v: 10^(d-1) <= v < 10^d (only v < 10 when d = 1) |
| `Runner.Contain` | Assignment-1/Assignment-1/task-3.py:53-66 | every result becomes a report of that implementation: a value is printed, with a time line iff timing is on, exactly when its text is within the digit limit, and otherwise becomes the digit-limit error line; stack exhaustion becomes the RecursionError line naming n; the negative-argument error becomes the error line with its message |
| `Runner.ReportOfValidRun` | Assignment-1/Assignment-1/task-3.py:53-80 | for n >= 0 Iterative reports stack exhaustion when no frame is left, and Recursive when its call depth does not fit; otherwise each prints n! if its text is within the digit limit and gives the digit-limit error line if not; the negative-argument error line never appears |
| `Runner.PrintedValuesAgree` | Assignment-1/Assignment-1/task-3.py:76-80 | when both implementations print a value for the same n, the two values are equal |
| `Runner.SampleRuns` | Assignment-1/Assignment-1/task-3.py:69-82 | n = 5 with both gives 120 twice, Iterative first; n = 0 with iterative prints 1; 10! = 3628800; n = -3 runs nothing and exits with 2; under the smallest accepted limit, 640, the 641-digit value 10^640 becomes the digit-limit error line |
| `Runner.RunMethod` | Assignment-1/Assignment-1/task-3.py:53-66 | the report of one run is the contained result of that implementation (the iterative loop when a frame is left), and no failure escapes it |
| `Runner.Run` | Assignment-1/Assignment-1/task-3.py:69-82 | the exit code is the plan's: 2 for n < 0 and 0 otherwise, whatever the runs report; the reports follow the plan's implementations one to one and in order |

## Left out

- Argument parsing (`parse_args`, task-3.py:34-50) is a thin layer over `argparse`. The model takes n, the `--method` choice and the `--time` flag as already parsed.
- Timing (task-3.py:55-60) reads a wall clock and formats a float. The model keeps only whether the time line follows the value (`Printed.timed`), not the elapsed time.
- Printing to stdout and stderr, and the process exit through `SystemExit` (task-3.py:59-66, 73, 86), are I/O. The model returns the reports and the exit code instead of the text lines.
- Runner.Contain: the source's generic `except Exception` also catches failures other than the two `ValueError`s modelled (the negative argument and the digit limit), such as running out of memory. The model has no such failures.
- Runner.DecimalDigits: the interpreter's exact digit-limit test for very large integers (a quick estimate from the integer's size before the exact count) is modelled as the exact count. The text of the digit-limit message is kept abstract as the limit itself.
- Factorial.CallDepth counts only the frames of the recursive function itself. The interpreter's real limit also counts the frames of `main` and `run_method`, and those the model folds into `frames`.
