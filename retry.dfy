/** The retry wrapper around a workflow step, shared by
    `WorkflowOrchestrator._run_step_with_retry` and `utils.run_step_with_retry`:
    the step is called at most twice; when both calls fail the operator is asked
    "(W)iederholen, (Ü)berspringen, (B)eenden, (N)eue FritzBox?" until one of
    those four letters is typed. The two copies differ only in what counts as a
    failed call: both count an exception, only the orchestrator also counts an
    explicit `False` result. */
module Retry {
  import opened Prompt

  /** How many times the step is called before the operator is asked. */
  const MaxAttempts: nat := 2

  /** The letters the question accepts: retry, skip, stop, new box. */
  const RetryAnswers: set<string> := {"w", "ü", "b", "n"}

  /** How a wrapper ends: it returns True (the step passed or was skipped), it
      returns False (the operator stopped), it raises
      `RuntimeError("RESTART_NEW_BOX")`, or `input()` raised `EOFError`. */
  datatype RetryResult = Passed | Aborted | Restart | InputEnded

  /** A finished wrapper: its result, the index of the next unused call of the
      step, and the position of the console. */
  datatype RetryRun = RetryRun(result: RetryResult, next: nat, pos: nat)

  /** Whether a call counts as a failure: an exception always, an explicit
      `False` only where `falseFails`. */
  predicate Fails(c: Call, falseFails: bool)
  {
    c == Raises || (falseFails && c == ReturnsFalse)
  }

  /** The wrapper, given the outcomes of the step's successive calls (`calls(i)`
      is what the `i`-th call does) starting at call `from`, and the console
      lines starting at `pos`. A 'w' answer starts the wrapper afresh on the next
      two calls. */
  function RetrySpec(calls: nat -> Call, falseFails: bool, from: nat, words: seq<string>, pos: nat): (r: RetryRun)
    ensures r.pos >= pos
    ensures r.next > from
    ensures r.next <= from + MaxAttempts || r.pos > pos
    decreases if pos <= |words| then |words| - pos else 0
  {
    if !Fails(calls(from), falseFails) then RetryRun(Passed, from + 1, pos)
    else if !Fails(calls(from + 1), falseFails) then RetryRun(Passed, from + 2, pos)
    else
      var a := NextAnswer(words, pos, RetryAnswers);
      if a.EndOfInput? then RetryRun(InputEnded, from + 2, AnswerPos(words, pos, a))
      else if a.word == "w" then RetrySpec(calls, falseFails, from + 2, words, a.next)
      else RetryRun(AnswerResult(a.word), from + 2, a.next)
  }

  /** What the answers other than 'w' make the wrapper do. */
  function AnswerResult(word: string): (r: RetryResult)
    ensures r == Aborted <==> word == "b"
    ensures r == Restart <==> word == "n"
    ensures r == Passed <==> word != "b" && word != "n"
  {
    if word == "b" then Aborted else if word == "n" then Restart else Passed
  }

  /** When one of the first two calls succeeds the wrapper passes at once, after
      exactly as many calls as it took, and reads nothing from the console. */
  lemma PassesWithoutAsking(calls: nat -> Call, falseFails: bool, from: nat, words: seq<string>, pos: nat)
    requires !Fails(calls(from), falseFails) || !Fails(calls(from + 1), falseFails)
    ensures RetrySpec(calls, falseFails, from, words, pos) ==
              RetryRun(Passed, if Fails(calls(from), falseFails) then from + 2 else from + 1, pos)
  {
  }

  /** After two failed calls the first accepted answer decides: 'b' stops, 'ü'
      skips, 'n' asks for a new box, 'w' runs the wrapper again on the next two
      calls, and the end of the input ends the wrapper with `EOFError`. */
  lemma AnswerDecides(calls: nat -> Call, falseFails: bool, from: nat, words: seq<string>, pos: nat, k: nat)
    requires Fails(calls(from), falseFails) && Fails(calls(from + 1), falseFails)
    requires pos <= k < |words| && words[k] in RetryAnswers
    requires forall j :: pos <= j < k ==> words[j] !in RetryAnswers
    ensures words[k] == "b" ==> RetrySpec(calls, falseFails, from, words, pos) == RetryRun(Aborted, from + 2, k + 1)
    ensures words[k] == "ü" ==> RetrySpec(calls, falseFails, from, words, pos) == RetryRun(Passed, from + 2, k + 1)
    ensures words[k] == "n" ==> RetrySpec(calls, falseFails, from, words, pos) == RetryRun(Restart, from + 2, k + 1)
    ensures words[k] == "w" ==> RetrySpec(calls, falseFails, from, words, pos) == RetrySpec(calls, falseFails, from + 2, words, k + 1)
  {
    NextAnswerAt(words, pos, k, RetryAnswers);
  }

  /** Two failed calls and no accepted answer left: the wrapper ends with the
      input, after exactly two calls. */
  lemma NoAnswerEndsWrapper(calls: nat -> Call, falseFails: bool, from: nat, words: seq<string>, pos: nat)
    requires Fails(calls(from), falseFails) && Fails(calls(from + 1), falseFails)
    requires forall j :: pos <= j < |words| ==> words[j] !in RetryAnswers
    ensures RetrySpec(calls, falseFails, from, words, pos).result == InputEnded
    ensures RetrySpec(calls, falseFails, from, words, pos).next == from + 2
  {
    NextAnswerNone(words, pos, RetryAnswers);
  }

  /** The wrapper after two failed calls, one answer at a time. */
  lemma AfterTwoFailures(calls: nat -> Call, falseFails: bool, from: nat, words: seq<string>, pos: nat)
    requires Fails(calls(from), falseFails) && Fails(calls(from + 1), falseFails)
    ensures var a := NextAnswer(words, pos, RetryAnswers);
            var r := RetrySpec(calls, falseFails, from, words, pos);
            && (a.EndOfInput? ==> r == RetryRun(InputEnded, from + 2, AnswerPos(words, pos, a)))
            && (a.Got? && a.word == "w" ==> r == RetrySpec(calls, falseFails, from + 2, words, a.next))
            && (a.Got? && a.word != "w" ==> r == RetryRun(AnswerResult(a.word), from + 2, a.next))
  {
  }

  /** The wrapper stops (returns False) only because the operator typed 'b', and
      asks for a new box only because the operator typed 'n': that word is the
      last line it read. */
  lemma {:induction false} OnlyTheOperatorStops(calls: nat -> Call, falseFails: bool, from: nat, words: seq<string>, pos: nat)
    ensures var r := RetrySpec(calls, falseFails, from, words, pos);
            (r.result == Aborted || r.result == Restart) ==>
              pos < r.pos <= |words| && AnswerResult(words[r.pos - 1]) == r.result
    decreases if pos <= |words| then |words| - pos else 0
  {
    if Fails(calls(from), falseFails) && Fails(calls(from + 1), falseFails) {
      AfterTwoFailures(calls, falseFails, from, words, pos);
      var a := NextAnswer(words, pos, RetryAnswers);
      if a.Got? && a.word == "w" {
        OnlyTheOperatorStops(calls, falseFails, from + 2, words, a.next);
      }
    }
  }

  /** Where only exceptions count (`utils.run_step_with_retry`), a step that
      returns `False` passes on its first call; where `False` counts too (the
      orchestrator), the same step never passes by itself. */
  lemma FalseCountsOnlyInOrchestrator(calls: nat -> Call, from: nat, words: seq<string>, pos: nat)
    requires calls(from) == ReturnsFalse
    ensures RetrySpec(calls, false, from, words, pos) == RetryRun(Passed, from + 1, pos)
    ensures calls(from + 1) == ReturnsFalse ==> RetrySpec(calls, true, from, words, pos).next >= from + 2
  {
  }
}
