/** utils.py: the retry wrapper of the older scripts and the workflow that
    runs the steps of fritz_steps.py through it. Each step's calls are an
    oracle (`calls(k)(i)` is what the `i`-th call of step `k` does); the
    console is a `Console`; the browser is a `Driver` that counts its `quit()`
    calls. */
module Utils {
  import opened Common
  import opened Prompt
  import opened Retry
  import opened FritzSteps

  /** `run_step_with_retry(driver, description, func)` (lines 30-58): two
      calls, where only an exception fails; then the operator's question, a
      'w' starting the wrapper afresh. */
  method RunStepWithRetry(console: Console, calls: nat -> Call, from: nat) returns (result: RetryResult, next: nat)
    requires console.Valid()
    modifies console`pos
    ensures RetryRun(result, next, console.pos) == RetrySpec(calls, false, from, console.words, old(console.pos))
    decreases if console.pos <= |console.lines| then |console.lines| - console.pos else 0
  {
    ghost var words := console.words;
    var attempt := 0;
    while attempt < MaxAttempts
      invariant attempt <= MaxAttempts && console.pos == old(console.pos)
      invariant attempt >= 1 ==> Fails(calls(from), false)
      invariant attempt >= 2 ==> Fails(calls(from + 1), false)
    {
      if calls(from + attempt) != Raises {
        return Passed, from + attempt + 1;
      }
      attempt := attempt + 1;
    }
    AfterTwoFailures(calls, false, from, words, old(console.pos));
    ghost var spec := RetrySpec(calls, false, from, words, old(console.pos));
    var answer := console.Ask(RetryAnswers);
    if answer.EndOfInput? {
      assert spec == RetryRun(RetryResult.InputEnded, from + 2, console.pos);
      return RetryResult.InputEnded, from + 2;
    }
    assert console.pos == answer.next;
    if answer.word == "w" {
      assert spec == RetrySpec(calls, false, from + 2, words, console.pos);
      result, next := RunStepWithRetry(console, calls, from + 2);
      return;
    }
    assert spec == RetryRun(AnswerResult(answer.word), from + 2, console.pos);
    if answer.word == "b" {
      result := Aborted;
    } else if answer.word == "ü" {
      result := Passed;
    } else {
      result := Restart;
    }
    next := from + 2;
  }

  /** How the loop over the steps ends: all steps ran, a wrapper returned
      False (`break`), a wrapper raised `RESTART_NEW_BOX`, or `input()` raised
      `EOFError` inside a wrapper. */
  datatype StepsEnd = AllPassed | Stopped | NewBoxAsked | InputRaised

  /** The loop from step `k` on: how it ends, how many steps ran, and the
      console position. */
  datatype StepsRun = StepsRun(end: StepsEnd, ran: nat, pos: nat)

  /** What a wrapper's end makes the loop do, other than going on. */
  function EndOf(r: RetryResult): (e: StepsEnd)
    requires r != Passed
    ensures e == Stopped <==> r == Aborted
    ensures e == NewBoxAsked <==> r == Restart
    ensures e == InputRaised <==> r == InputEnded
  {
    match r
    case Aborted => Stopped
    case Restart => NewBoxAsked
    case InputEnded => InputRaised
  }

  /** The `for` loop of lines 68-70 over `count` steps, from step `k` on. */
  function StepsFrom(calls: nat -> nat -> Call, count: nat, words: seq<string>, k: nat, pos: nat): (r: StepsRun)
    requires k <= count
    ensures k <= r.ran <= count && pos <= r.pos
    ensures r.end == AllPassed ==> r.ran == count
    decreases count - k
  {
    if k == count then StepsRun(AllPassed, k, pos)
    else
      var w := RetrySpec(calls(k), false, 0, words, pos);
      if w.result == Passed then StepsFrom(calls, count, words, k + 1, w.pos)
      else StepsRun(EndOf(w.result), k + 1, w.pos)
  }

  /** Steps whose first call does not raise all pass without a question,
      also those that return `False`: the loop runs every step and reads
      nothing. */
  lemma {:induction false} NoExceptionNoQuestion(calls: nat -> nat -> Call, count: nat, words: seq<string>, k: nat, pos: nat)
    requires k <= count
    requires forall i: nat :: k <= i < count ==> calls(i)(0) != Raises
    ensures StepsFrom(calls, count, words, k, pos) == StepsRun(AllPassed, count, pos)
    decreases count - k
  {
    if k < count {
      PassesWithoutAsking(calls(k), false, 0, words, pos);
      NoExceptionNoQuestion(calls, count, words, k + 1, pos);
    }
  }

  /** The loop breaks, or asks for a new box, only on the operator's word: the
      last line read was 'b' or 'n'. */
  lemma {:induction false} OnlyTheOperatorEndsEarly(calls: nat -> nat -> Call, count: nat, words: seq<string>, k: nat, pos: nat)
    requires k <= count
    ensures var r := StepsFrom(calls, count, words, k, pos);
            (r.end == Stopped || r.end == NewBoxAsked) ==>
              pos < r.pos <= |words| && words[r.pos - 1] == (if r.end == Stopped then "b" else "n")
    decreases count - k
  {
    if k < count {
      var w := RetrySpec(calls(k), false, 0, words, pos);
      OnlyTheOperatorStops(calls(k), false, 0, words, pos);
      if w.result == Passed {
        OnlyTheOperatorEndsEarly(calls, count, words, k + 1, w.pos);
      }
    }
  }

  /** What `run_workflow` returns: `"restart"` or None. */
  datatype WorkflowResult = RestartResult | NoneResult

  /** `run_workflow` returns `"restart"` exactly when a wrapper raised
      `RESTART_NEW_BOX`; every other end, also the `EOFError` caught by
      `except Exception`, returns None. */
  function ResultOf(e: StepsEnd): (r: WorkflowResult)
    ensures r == RestartResult <==> e == NewBoxAsked
  {
    if e == NewBoxAsked then RestartResult else NoneResult
  }

  /** The loop of `run_workflow`, over the steps `get_steps_from_branding`
      returned. */
  method RunSteps(console: Console, steps: seq<Step>, calls: nat -> nat -> Call) returns (end: StepsEnd, ran: nat)
    requires console.Valid()
    modifies console`pos
    ensures StepsRun(end, ran, console.pos) == StepsFrom(calls, |steps|, console.words, 0, old(console.pos))
  {
    ran := 0;
    while ran < |steps|
      invariant ran <= |steps|
      invariant StepsFrom(calls, |steps|, console.words, 0, old(console.pos)) ==
                StepsFrom(calls, |steps|, console.words, ran, console.pos)
    {
      var result, _ := RunStepWithRetry(console, calls(ran), 0);
      ran := ran + 1;
      if result != Passed {
        return EndOf(result), ran;
      }
    }
    return AllPassed, ran;
  }

  /** `run_workflow(password, firmware_pfad)` (lines 61-81): a new browser,
      the steps of `get_steps_from_branding`, and `beende_browser` in
      `finally`; on the restart path `beende_browser` runs before the
      `return` as well, so the driver is quit twice. */
  method RunWorkflow(console: Console, page: BrandingPage, password: Option<string>, path: string, calls: nat -> nat -> Call)
    returns (result: WorkflowResult, driver: Driver)
    requires console.Valid()
    modifies console`pos
    ensures fresh(driver)
    ensures var r := StepsFrom(calls, 4, console.words, 0, old(console.pos));
            result == ResultOf(r.end) && console.pos == r.pos
    ensures driver.quits == if result == RestartResult then 2 else 1
  {
    driver := new Driver();
    var steps := GetStepsFromBranding(page, password, path).steps;
    var end, _ := RunSteps(console, steps, calls);
    result := ResultOf(end);
    if end == NewBoxAsked {
      BeendeBrowser(driver);
    }
    BeendeBrowser(driver);
  }
}
