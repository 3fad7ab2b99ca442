/** The operator's console. Every question the tool asks reads one line with
    `input()`; reading past the last line raises `EOFError`. Answers are compared
    after `.strip().lower()` (or, for the yes/no questions of the orchestrator,
    after `.lower()` alone). */
module Prompt {
  import opened Common
  import opened Text

  /** `line.strip().lower()` */
  function Normalize(line: string): (r: string)
    ensures |r| <= |line|
    ensures r == [] || (!IsSpace(r[0]) && !IsSpace(r[|r| - 1]))
  {
    Lower(Strip(line))
  }

  /** An answer that is already trimmed and lower-case is read as itself. */
  lemma NormalizeIdempotent(line: string)
    ensures Normalize(Normalize(line)) == Normalize(line)
  {
    var t := Strip(line);
    var n := Lower(t);
    if n != [] {
      LowerCharSpace(t[0]);
      LowerCharSpace(t[|t| - 1]);
    }
    StripNoSpaceEnds(n);
    LowerIdempotent(t);
  }

  /** The lines typed, each as the questions compare it (`strip().lower()`). */
  function Words(lines: seq<string>): (r: seq<string>)
    ensures |r| == |lines|
    decreases |lines|
  {
    if lines == [] then [] else Words(lines[..|lines| - 1]) + [Normalize(lines[|lines| - 1])]
  }

  lemma {:induction false} WordsAt(lines: seq<string>, j: nat)
    requires j < |lines|
    ensures Words(lines)[j] == Normalize(lines[j])
    decreases |lines|
  {
    if j < |lines| - 1 {
      WordsAt(lines[..|lines| - 1], j);
    }
  }

  /** The answer to a question that repeats until one of `accepted` is typed. */
  datatype Answer = EndOfInput | Got(word: string, next: nat)

  /** Whether word `j` is one of the `accepted` ones. */
  function AcceptedAt(words: seq<string>, accepted: set<string>): (r: nat -> bool)
  {
    (j: nat) => j < |words| && words[j] in accepted
  }

  /** Read words from `pos` on until one is in `accepted`. */
  function NextAnswer(words: seq<string>, pos: nat, accepted: set<string>): (r: Answer)
    ensures r.Got? ==> pos < r.next <= |words| && r.word in accepted && words[r.next - 1] == r.word
  {
    match FirstHit(AcceptedAt(words, accepted), |words|, pos)
    case None => EndOfInput
    case Some(j) => Got(words[j], j + 1)
  }

  /** The words passed over on the way were all rejected; running out of
      input means no word from `pos` on was accepted. */
  lemma NextAnswerSkips(words: seq<string>, pos: nat, accepted: set<string>)
    ensures NextAnswer(words, pos, accepted).Got? ==>
              forall j :: pos <= j < NextAnswer(words, pos, accepted).next - 1 ==> words[j] !in accepted
    ensures NextAnswer(words, pos, accepted).EndOfInput? ==>
              forall j :: pos <= j < |words| ==> words[j] !in accepted
  {
    var p := AcceptedAt(words, accepted);
    FirstHitFirst(p, |words|, pos);
    assert forall j :: pos <= j < |words| ==> (p(j) <==> words[j] in accepted);
  }

  /** A question that is asked once, answered by `input().lower()`. */
  datatype YesNo = NoInput | Said(yes: bool)

  /** `input(...).lower() == 'j'`: only a bare `j` or `J` means yes; the line is not stripped. */
  function AskYes(stdin: seq<string>, pos: nat): (r: YesNo)
    ensures r.NoInput? <==> pos >= |stdin|
    ensures r.Said? ==> (r.yes <==> stdin[pos] == "j" || stdin[pos] == "J")
  {
    if pos >= |stdin| then NoInput else Said(Lower(stdin[pos]) == "j")
  }

  /** What a called step did, as the retry wrappers see it: it raised an
      exception, it returned exactly `False`, or it returned anything else
      (`True`, `None`, a string ...). */
  datatype Call = Raises | ReturnsFalse | ReturnsOther

  /** The first accepted word at or after `pos` is the answer. */
  lemma NextAnswerAt(words: seq<string>, pos: nat, k: nat, accepted: set<string>)
    requires pos <= k < |words| && words[k] in accepted
    requires forall j :: pos <= j < k ==> words[j] !in accepted
    ensures NextAnswer(words, pos, accepted) == Got(words[k], k + 1)
  {
    FirstHitIs(AcceptedAt(words, accepted), |words|, k, pos);
  }

  /** With no accepted word left, the question ends with the input. */
  lemma NextAnswerNone(words: seq<string>, pos: nat, accepted: set<string>)
    requires forall j :: pos <= j < |words| ==> words[j] !in accepted
    ensures NextAnswer(words, pos, accepted) == EndOfInput
  {
    FirstHitNone(AcceptedAt(words, accepted), |words|, pos);
  }

  /** Where the console stands once a question has been answered: just past the
      accepted line, or at the end of the input. */
  function AnswerPos(words: seq<string>, pos: nat, a: Answer): (r: nat)
    ensures a.Got? ==> r == a.next
    ensures a.EndOfInput? ==> r >= pos && r >= |words|
  {
    match a
    case Got(_, next) => next
    case EndOfInput => if pos < |words| then |words| else pos
  }

  /** The operator's console: the lines typed, and how many have been read. */
  class Console {
    const lines: seq<string>
    /** The same lines as the questions compare them. */
    ghost const words: seq<string>
    var pos: nat

    ghost predicate Valid()
    {
      words == Words(lines)
    }

    constructor (lines: seq<string>)
      ensures this.lines == lines && Valid() && pos == 0
    {
      this.lines := lines;
      words := Words(lines);
      pos := 0;
    }

    /** `input()`: the next line, or `None` where Python raises `EOFError`. */
    method ReadLine() returns (line: Option<string>)
      modifies this`pos
      ensures old(pos) < |lines| ==> line == Some(lines[old(pos)]) && pos == old(pos) + 1
      ensures old(pos) >= |lines| ==> line == None && pos == old(pos)
    {
      if pos < |lines| {
        line := Some(lines[pos]);
        pos := pos + 1;
      } else {
        line := None;
      }
    }

    /** `while True: answer = input().strip().lower()`, leaving the loop on an
        accepted answer and asking again on any other. */
    method Ask(accepted: set<string>) returns (a: Answer)
      requires Valid()
      modifies this`pos
      ensures a == NextAnswer(words, old(pos), accepted)
      ensures pos == AnswerPos(words, old(pos), a)
    {
      while true
        invariant old(pos) <= pos
        invariant pos > old(pos) ==> pos <= |lines|
        invariant forall j :: old(pos) <= j < pos ==> words[j] !in accepted
        decreases |lines| - pos
      {
        var word := ReadWord();
        if word.None? {
          NextAnswerNone(words, old(pos), accepted);
          return EndOfInput;
        }
        if word.value in accepted {
          NextAnswerAt(words, old(pos), pos - 1, accepted);
          return Got(word.value, pos);
        }
      }
    }

    /** `input().strip().lower()`: the next line as the questions compare it. */
    method ReadWord() returns (word: Option<string>)
      requires Valid()
      modifies this`pos
      ensures old(pos) < |lines| ==> word == Some(words[old(pos)]) && pos == old(pos) + 1
      ensures old(pos) >= |lines| ==> word == None && pos == old(pos)
    {
      var line := ReadLine();
      if line.None? {
        return None;
      }
      WordsAt(lines, pos - 1);
      word := Some(Normalize(line.value));
    }

    /** `input(...).lower() == 'j'` */
    method AskYesNo() returns (a: YesNo)
      modifies this`pos
      ensures a == AskYes(lines, old(pos))
      ensures pos == if old(pos) < |lines| then old(pos) + 1 else old(pos)
    {
      var line := ReadLine();
      if line.None? {
        return NoInput;
      }
      a := Said(Lower(line.value) == "j");
    }
  }
}
