// The command-line runner: which implementations run for a given n and
// --method choice, in what order, how each run's failure is contained in a
// report line, and the process exit code. Argument parsing, printing and
// timing are outside the model. Two parameters stand for the interpreter:
// `frames` is the call-stack depth it still admits when an implementation
// is called, and `maxStrDigits` is its limit on the number of decimal digits
// an integer may have when converted to text (0 for no limit, otherwise
// at least 640, the smallest limit the interpreter accepts).

module Runner {
  import opened Factorial

  /** The --method choices "iterative", "recursive" and "both". */
  datatype Selection = SelectIterative | SelectRecursive | SelectBoth

  /** The two implementations, printed as "Iterative" and "Recursive". */
  datatype Strategy = Iterative | Recursive

  /** A limit on the decimal digits of an integer converted to text: 0 for no
      limit; the interpreter refuses any other value below 640. */
  type DigitLimit = m: nat | m == 0 || m >= 640

  /** Why a "<Name>: error: <message>" line is printed. */
  datatype ErrorCause =
    | Raised(message: string)         // the implementation raised ValueError(message)
    | DigitLimitExceeded(limit: DigitLimit)  // formatting the value exceeded the digit limit (a ValueError too)

  /** What one run of an implementation reports. */
  datatype Report =
    | Printed(strategy: Strategy, value: int, timed: bool)  // "<Name>: <value>", then a time line if timed
    | RecursionReport(strategy: Strategy, n: int)           // "<Name>: RecursionError (stack too deep for n=<n>)"
    | ErrorReport(strategy: Strategy, cause: ErrorCause)    // "<Name>: error: <message>"

  /** The decision of the runner: the implementations to run, in order, and the exit code. */
  datatype Dispatch = Dispatch(strategies: seq<Strategy>, exitCode: int)

  /** Whether the choice asks for the implementation: "iterative" and "both"
      select Iterative, "recursive" and "both" select Recursive. */
  predicate Selects(sel: Selection, s: Strategy)
  {
    match s
    case Iterative => sel == SelectIterative || sel == SelectBoth
    case Recursive => sel == SelectRecursive || sel == SelectBoth
  }

  /** The dispatch of the runner: a negative n aborts with exit code 2 before
      any implementation runs; otherwise Iterative runs if selected, then
      Recursive if selected, and the exit code is 0. */
  function Plan(n: int, sel: Selection): (p: Dispatch)
    ensures n < 0 ==> p.strategies == [] && p.exitCode == 2
    ensures n >= 0 ==> p.exitCode == 0
    ensures Iterative in p.strategies <==> n >= 0 && sel in {SelectIterative, SelectBoth}
    ensures Recursive in p.strategies <==> n >= 0 && sel in {SelectRecursive, SelectBoth}
    ensures n >= 0 && sel == SelectBoth ==> p.strategies == [Iterative, Recursive]
    ensures forall i, j :: 0 <= i < j < |p.strategies| ==> p.strategies[i] != p.strategies[j]
  {
    if n < 0 then Dispatch([], 2)
    else
      var first := if Selects(sel, Iterative) then [Iterative] else [];
      var second := if Selects(sel, Recursive) then [Recursive] else [];
      Dispatch(first + second, 0)
  }

  function Pow10(k: nat): (p: nat)
  {
    if k == 0 then 1 else 10 * Pow10(k - 1)
  }

  /** The number of decimal digits of v, the length of its text. */
  function DecimalDigits(v: nat): (d: nat)
    ensures d >= 1
    ensures v < Pow10(d)
    ensures d > 1 ==> Pow10(d - 1) <= v
    decreases v
  {
    if v < 10 then 1 else 1 + DecimalDigits(v / 10)
  }

  /** 10^k has k + 1 digits. */
  lemma {:induction false} DigitsOfPow10(k: nat)
    ensures DecimalDigits(Pow10(k)) == k + 1
  {
    if k > 0 {
      DigitsOfPow10(k - 1);
      assert Pow10(k) / 10 == Pow10(k - 1);
    }
  }

  function Abs(v: int): (a: nat)
    ensures a == v || a == -v
  {
    if v < 0 then -v else v
  }

  /** Whether converting v to text stays within the digit limit (0: no limit). */
  predicate WithinDigitLimit(v: int, maxStrDigits: DigitLimit)
  {
    maxStrDigits == 0 || DecimalDigits(Abs(v)) <= maxStrDigits
  }

  /** How a run's result is contained in its report: a value is printed when its
      text is within the digit limit and is otherwise an error line; a stack
      exhaustion gets its own line naming n, and the negative-argument error
      its message; no failure escapes the report. */
  function Contain(s: Strategy, n: int, showTime: bool, maxStrDigits: DigitLimit, r: Result<int>): (rep: Report)
    ensures rep.strategy == s
    ensures rep.Printed? <==> r.Ok? && (maxStrDigits == 0 || DecimalDigits(Abs(r.value)) <= maxStrDigits)
    ensures rep.Printed? ==> rep.value == r.value && rep.timed == showTime
    ensures rep.RecursionReport? <==> r == Err(StackExhausted)
    ensures rep.RecursionReport? ==> rep.n == n
    ensures rep.ErrorReport? && rep.cause.DigitLimitExceeded? <==> r.Ok? && !rep.Printed?
    ensures rep.ErrorReport? && rep.cause.DigitLimitExceeded? ==> rep.cause.limit == maxStrDigits
    ensures rep.ErrorReport? && rep.cause.Raised? <==> r.Err? && r.error.InvalidArgument?
    ensures rep.ErrorReport? && rep.cause.Raised? ==> rep.cause.message == r.error.message
  {
    match r
    case Ok(v) =>
      if WithinDigitLimit(v, maxStrDigits) then Printed(s, v, showTime)
      else ErrorReport(s, DigitLimitExceeded(maxStrDigits))
    case Err(StackExhausted) => RecursionReport(s, n)
    case Err(InvalidArgument(m)) => ErrorReport(s, Raised(m))
  }

  /** The result one implementation gives on n: a call made with no frame left
      fails with StackExhausted; otherwise the iterative one gives the recursive
      definition's value (see FactorialIterative), and the recursive one
      depends on the stack it runs on. */
  function Computed(s: Strategy, n: int, frames: nat): (r: Result<int>)
  {
    match s
    case Iterative => if frames == 0 then Err(StackExhausted) else FactorialRecursive(n)
    case Recursive => FactorialRecursiveInStack(n, frames)
  }

  /** The report of a run with a valid n: Iterative prints n! when it gets a
      frame, Recursive when its whole call depth fits the stack, and otherwise
      the run reports stack exhaustion; a printed n! is replaced by the error
      line of the digit limit when its text is too long; the error line of a
      negative argument never appears. */
  lemma ReportOfValidRun(s: Strategy, n: int, showTime: bool, maxStrDigits: DigitLimit, frames: nat)
    requires n >= 0
    ensures s == Iterative ==> Contain(s, n, showTime, maxStrDigits, Computed(s, n, frames))
                                 == if frames == 0 then RecursionReport(Iterative, n)
                                    else if WithinDigitLimit(ProductRange(1, n), maxStrDigits)
                                    then Printed(Iterative, ProductRange(1, n), showTime)
                                    else ErrorReport(Iterative, DigitLimitExceeded(maxStrDigits))
    ensures s == Recursive ==> Contain(s, n, showTime, maxStrDigits, Computed(s, n, frames))
                                 == if CallDepth(n) > frames then RecursionReport(Recursive, n)
                                    else if WithinDigitLimit(ProductRange(1, n), maxStrDigits)
                                    then Printed(Recursive, ProductRange(1, n), showTime)
                                    else ErrorReport(Recursive, DigitLimitExceeded(maxStrDigits))
  {
    RecursiveIsProduct(n);
    InStackAgrees(n, frames);
  }

  /** When both implementations print a value for the same n, the values agree. */
  lemma PrintedValuesAgree(n: int, showTime: bool, maxStrDigits: DigitLimit, frames: nat)
    requires Contain(Iterative, n, showTime, maxStrDigits, Computed(Iterative, n, frames)).Printed?
    requires Contain(Recursive, n, showTime, maxStrDigits, Computed(Recursive, n, frames)).Printed?
    ensures Contain(Iterative, n, showTime, maxStrDigits, Computed(Iterative, n, frames)).value
         == Contain(Recursive, n, showTime, maxStrDigits, Computed(Recursive, n, frames)).value
  {
    InStackAgrees(n, frames);
  }

  /** Sample runs: n = 5 with "both" prints 120 twice, in the order Iterative
      then Recursive; n = 0 with "iterative" prints 1; n = 10 gives 3628800;
      n = -3 runs nothing and exits with 2; under the smallest digit limit,
      640, a value of 641 digits becomes an error line. */
  lemma SampleRuns(showTime: bool)
    ensures Plan(5, SelectBoth).strategies == [Iterative, Recursive]
    ensures Computed(Iterative, 5, 5) == Ok(120) && Computed(Recursive, 5, 5) == Ok(120)
    ensures Plan(0, SelectIterative).strategies == [Iterative]
    ensures Contain(Iterative, 0, showTime, 0, Computed(Iterative, 0, 1)) == Printed(Iterative, 1, showTime)
    ensures FactorialRecursive(10) == Ok(3628800)
    ensures Plan(-3, SelectBoth) == Dispatch([], 2)
    ensures Contain(Iterative, 0, showTime, 640, Ok(Pow10(640)))
         == ErrorReport(Iterative, DigitLimitExceeded(640))
  {
    DigitsOfPow10(640);
  }

  /** One run of an implementation with its failures contained. */
  method RunMethod(s: Strategy, n: int, showTime: bool, maxStrDigits: DigitLimit, frames: nat)
    returns (rep: Report)
    ensures rep == Contain(s, n, showTime, maxStrDigits, Computed(s, n, frames))
  {
    var r: Result<int>;
    match s {
      case Iterative =>
        if frames == 0 {
          r := Err(StackExhausted);
        } else {
          r := FactorialIterative(n);
        }
      case Recursive => r := FactorialRecursiveInStack(n, frames);
    }
    rep := Contain(s, n, showTime, maxStrDigits, r);
  }

  /** The runner's entry point (main in the source): validates n, runs the
      selected implementations in order and returns the exit code. The reports
      follow the plan one to one, and the exit code depends only on n,
      whatever the runs report. */
  method Run(n: int, sel: Selection, showTime: bool, maxStrDigits: DigitLimit, frames: nat)
    returns (reports: seq<Report>, exitCode: int)
    ensures exitCode == Plan(n, sel).exitCode
    ensures exitCode == if n < 0 then 2 else 0
    ensures |reports| == |Plan(n, sel).strategies|
    ensures forall k :: 0 <= k < |reports| ==>
              reports[k] == Contain(Plan(n, sel).strategies[k], n, showTime, maxStrDigits,
                                    Computed(Plan(n, sel).strategies[k], n, frames))
  {
    if n < 0 {
      return [], 2;
    }
    reports := [];
    if Selects(sel, Iterative) {
      var rep := RunMethod(Iterative, n, showTime, maxStrDigits, frames);
      reports := reports + [rep];
    }
    if Selects(sel, Recursive) {
      var rep := RunMethod(Recursive, n, showTime, maxStrDigits, frames);
      reports := reports + [rep];
    }
    exitCode := 0;
  }
}
