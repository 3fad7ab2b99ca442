/** workflow.py: the simplest driver of the steps of fritz_steps.py. Its
    `run_step` calls a step once and, when it raises, asks a single question
    (retry, skip, or stop) without repeating it; `run_workflow` runs the four
    standard steps in order and lets every exception through. */
module Workflow {
  import opened Common
  import opened Prompt
  import Retry
  import opened FritzSteps

  /** How `run_step` ends: it returns what the step returned (`value` is never
      `Raises`), it returns None after 'ü', the step's exception escapes (on
      the repeated call), `input()` raises `EOFError`, or it raises
      `SystemExit`. */
  datatype StepEnd = Returned(value: Call) | Skipped | Raised | InputEnded | Exited

  /** A finished `run_step`: how it ended, how many calls of the step it
      made, and the console position. */
  datatype StepRun = StepRun(end: StepEnd, calls: nat, pos: nat)

  /** Whether `run_step` lets an exception out. */
  predicate Escapes(e: StepEnd)
  {
    e.Raised? || e.InputEnded? || e.Exited?
  }

  /** `run_step(driver, description, func)` (lines 7-19), given what its
      first and second call of the step do; the answer is compared after
      `strip().lower()`. */
  function RunStep(first: Call, second: Call, lines: seq<string>, pos: nat): (r: StepRun)
    ensures first != Raises ==> r == StepRun(Returned(first), 1, pos)
    ensures first == Raises && pos >= |lines| ==> r == StepRun(InputEnded, 1, pos)
    ensures first == Raises && pos < |lines| ==> r.pos == pos + 1
    ensures r.end.Returned? ==> r.end.value != Raises
    ensures 1 <= r.calls <= 2
    ensures r.calls == 2 <==> first == Raises && pos < |lines| && Normalize(lines[pos]) == "w"
  {
    if first != Raises then StepRun(Returned(first), 1, pos)
    else if pos >= |lines| then StepRun(InputEnded, 1, pos)
    else
      var choice := Normalize(lines[pos]);
      if choice == "w" then
        StepRun(if second == Raises then Raised else Returned(second), 2, pos + 1)
      else if choice == "ü" then StepRun(Skipped, 1, pos + 1)
      else StepRun(Exited, 1, pos + 1)
  }

  /** The answers after a failed call: 'w' calls the step exactly once more
      and returns its result or lets its exception out; 'ü' returns None;
      anything else, a typing error included, raises `SystemExit`. */
  lemma AnswerAfterFailure(second: Call, lines: seq<string>, pos: nat)
    requires pos < |lines|
    ensures var r := RunStep(Raises, second, lines, pos);
            && (Normalize(lines[pos]) == "w" ==> r.calls == 2 && (r.end == Raised <==> second == Raises) &&
                                                   (second != Raises ==> r.end == Returned(second)))
            && (Normalize(lines[pos]) == "ü" ==> r.end == Skipped)
            && (r.end == Exited <==> Normalize(lines[pos]) != "w" && Normalize(lines[pos]) != "ü")
  {
  }

  /** Unlike the retry wrapper of utils.py, which asks again after an answer
      it does not know and calls the step twice before asking, `run_step`
      asks once after one failed call, and an unknown answer stops the
      program. */
  lemma AsksOnlyOnce(second: Call, lines: seq<string>, pos: nat)
    requires pos < |lines| && Normalize(lines[pos]) !in Retry.RetryAnswers
    ensures RunStep(Raises, second, lines, pos) == StepRun(Exited, 1, pos + 1)
  {
  }

  /** How `run_workflow` ends: all steps returned, or the exception of step
      `step` escaped. */
  datatype WorkflowEnd = Completed | Escaped(step: nat, end: StepEnd)

  datatype WorkflowRun = WorkflowRun(end: WorkflowEnd, pos: nat)

  /** The loop of `run_workflow` over `count` steps from step `k` on;
      `calls(k)` is what the calls of step `k` do. */
  function StepsFrom(calls: nat -> nat -> Call, count: nat, lines: seq<string>, k: nat, pos: nat): (r: WorkflowRun)
    requires k <= count
    ensures pos <= r.pos
    ensures r.end.Escaped? ==> k <= r.end.step < count && Escapes(r.end.end)
    decreases count - k
  {
    if k == count then WorkflowRun(Completed, pos)
    else
      var s := RunStep(calls(k)(0), calls(k)(1), lines, pos);
      if Escapes(s.end) then WorkflowRun(Escaped(k, s.end), s.pos)
      else StepsFrom(calls, count, lines, k + 1, s.pos)
  }

  /** `run_workflow(driver, password, firmware_pfad)` (lines 21-24): the four
      standard steps, each through `run_step`, their results ignored. */
  method RunWorkflow(console: Console, password: Option<string>, path: string, calls: nat -> nat -> Call) returns (end: WorkflowEnd)
    modifies console`pos
    ensures WorkflowRun(end, console.pos) == StepsFrom(calls, 4, console.lines, 0, old(console.pos))
  {
    var steps := ErstelleStandardSteps(password, path);
    var k := 0;
    while k < |steps|
      invariant k <= |steps|
      invariant StepsFrom(calls, 4, console.lines, 0, old(console.pos)) ==
                StepsFrom(calls, 4, console.lines, k, console.pos)
    {
      var s := RunStep(calls(k)(0), calls(k)(1), console.lines, console.pos);
      console.pos := s.pos;
      if Escapes(s.end) {
        return Escaped(k, s.end);
      }
      k := k + 1;
    }
    return Completed;
  }

  /** The results of the steps do not matter: with no step raising, every
      step runs, whatever it returns (`False` included), and nothing is read
      from the console. */
  lemma {:induction false} ResultsIgnored(calls: nat -> nat -> Call, count: nat, lines: seq<string>, k: nat, pos: nat)
    requires k <= count
    requires forall i: nat :: k <= i < count ==> calls(i)(0) != Raises
    ensures StepsFrom(calls, count, lines, k, pos) == WorkflowRun(Completed, pos)
    decreases count - k
  {
    if k < count {
      NoRaiseReturns(calls(k)(0), calls(k)(1), lines, pos);
      ResultsIgnored(calls, count, lines, k + 1, pos);
    }
  }

  lemma NoRaiseReturns(first: Call, second: Call, lines: seq<string>, pos: nat)
    requires first != Raises
    ensures !Escapes(RunStep(first, second, lines, pos).end) && RunStep(first, second, lines, pos).pos == pos
  {
  }

  /** A step runs only after every earlier step returned: the run escapes at
      the first step whose `run_step` lets an exception out. */
  lemma {:induction false} EscapesAtFirstFailure(calls: nat -> nat -> Call, count: nat, lines: seq<string>, k: nat, pos: nat, j: nat)
    requires k <= j < count
    requires forall i: nat :: k <= i < j ==> calls(i)(0) != Raises
    requires calls(j)(0) == Raises && pos >= |lines|
    ensures StepsFrom(calls, count, lines, k, pos) == WorkflowRun(Escaped(j, InputEnded), pos)
    decreases j - k
  {
    if k < j {
      NoRaiseReturns(calls(k)(0), calls(k)(1), lines, pos);
      EscapesAtFirstFailure(calls, count, lines, k + 1, pos, j);
    }
  }
}
