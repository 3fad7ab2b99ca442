/** `WorkflowOrchestrator` (workflow_orchestrator.py): runs the steps of one
    box in a fixed order through the retry wrapper, decides between a factory
    reset and nothing, checks the WLAN antennas and asks whether a new box
    follows. The box itself is not simulated here: what each step call does is
    an oracle (`Environment.calls`), and the box's fields that the decision
    block reads are given as they stand when it reads them. */
module WorkflowOrchestrator {
  import opened Common
  import opened Prompt
  import opened Retry
  import opened BrowserUtils
  import opened FirmwareManager

  /** The places where `run_full_workflow` runs a step through the wrapper. */
  datatype Site =
    | Reach            // 102: warte_auf_erreichbarkeit
    | Login            // 104: login(password)
    | BoxModel         // 106: get_box_model
    | FwVersion        // 108: get_firmware_version
    | ExpertMode       // 112: activate_expert_mode_if_needed
    | ResetUi          // 161: perform_factory_reset_from_ui
    | ResetForgot      // 165: reset_via_forgot_password
    | ReachAfterReset  // 171: warte_auf_erreichbarkeit(versuche=30, delay=10)
    | ReloginAfterReset// 176: login(password, force_reload=True)
    | Wlan             // 180: check_wlan_antennas

  /** What `run_full_workflow` returns: `"restart"` or `None`. */
  datatype WorkflowResult = NewBox | NoResult

  /** Everything outside the orchestrator that its run depends on. */
  datatype Environment = Environment(
    calls: Site -> nat -> Call,   // what the i-th call of each step does
    boxModel: Option<string>,     // fritzbox.box_model when the decision block reads it
    osVersion: Option<string>,    // fritzbox.os_version at the same time
    loggedIn: bool,               // fritzbox.is_logged_in when the reset route is chosen
    dir: string,                  // the program's folder
    isFile: string -> bool,       // which image files exist there
    chosen: string)               // what the file dialog returns ("" when cancelled)

  /** The steps every run starts with, in order (lines 102-114). */
  const MandatorySites: seq<Site> := [Reach, Login, BoxModel, FwVersion, ExpertMode]

  /** The answers of the closing question: a new box, or the end. */
  const ClosingAnswers: set<string> := {"n", "b"}

  /** A run in progress: whether it has ended (and with what), the steps run so
      far, and the console position. */
  datatype Progress = Progress(stop: Option<WorkflowResult>, ran: seq<Site>, pos: nat)

  /** How a wrapper's end ends the run: True goes on; False returns None;
      `RESTART_NEW_BOX` is caught at line 197 and returns "restart"; an
      `EOFError` from the prompt is caught at line 203 and returns None. */
  function StepOutcome(r: RetryResult): (o: Option<WorkflowResult>)
    ensures o.None? <==> r == Passed
    ensures o == Some(NewBox) <==> r == Restart
  {
    match r
    case Passed => None
    case Aborted => Some(NoResult)
    case Restart => Some(NewBox)
    case InputEnded => Some(NoResult)
  }

  /** `if not self._run_step_with_retry(...): return None` for one step. A run
      that has ended runs nothing more. */
  function Then(p: Progress, site: Site, env: Environment, words: seq<string>): (r: Progress)
    ensures p.stop.Some? ==> r == p
    ensures p.stop.None? ==> r.ran == p.ran + [site]
    ensures r.pos >= p.pos
  {
    if p.stop.Some? then p
    else
      var w := RetrySpec(env.calls(site), true, 0, words, p.pos);
      Progress(StepOutcome(w.result), p.ran + [site], w.pos)
  }

  /** Lines 102-114. */
  function Mandatory(env: Environment, words: seq<string>, pos: nat): (r: Progress)
  {
    var p := Then(Progress(None, [], pos), Reach, env, words);
    Then(Then(Then(Then(p, Login, env, words), BoxModel, env, words), FwVersion, env, words), ExpertMode, env, words)
  }

  /** Whether `get_firmware_path(box_model)` is truthy: a shipped image always
      is (a non-empty path); the file dialog's answer is when not cancelled. */
  predicate FirmwarePathGiven(env: Environment)
  {
    match env.boxModel
    case None => env.chosen != ""
    case Some(m) => GetFirmwarePath(m, "final", env.dir, env.isFile).Shipped? || env.chosen != ""
  }

  /** `firmware_mapping.get(box_model)` is a (non-empty, so truthy) table entry. */
  predicate TargetKnown(boxModel: Option<string>)
  {
    boxModel.Some? && boxModel.value in Table
  }

  /** The end of the decision block: reset or not, or the end of the run, and
      the console position. */
  datatype Decision = Decision(reset: bool, stop: Option<WorkflowResult>, pos: nat)

  /** Lines 140-142: "reset anyway?" when no flag is set. */
  function ResetAnyway(lines: seq<string>, pos: nat): (d: Decision)
    ensures d.stop.Some? <==> pos >= |lines|
  {
    match AskYes(lines, pos)
    case NoInput => Decision(false, Some(NoResult), pos)
    case Said(yes) => Decision(yes, None, pos + 1)
  }

  /** Lines 122-142 for a truthy firmware path, or not (`given`). For a model in
      the table whose version is not exactly "8.03", line 132 evaluates
      `dict not in str` (or `dict not in None`), which raises `TypeError`; the
      handler at line 203 returns None. */
  function Recommend(env: Environment, lines: seq<string>, pos: nat, given: bool): (d: Decision)
  {
    if env.boxModel != Some("UNKNOWN") && given then
      if env.osVersion == Some("8.03") then
        match AskYes(lines, pos)
        case NoInput => Decision(false, Some(NoResult), pos)
        case Said(yes) => if yes then Decision(true, None, pos + 1) else ResetAnyway(lines, pos + 1)
      else if TargetKnown(env.boxModel) then Decision(false, Some(NoResult), pos)
      else ResetAnyway(lines, pos)
    else ResetAnyway(lines, pos)
  }

  /** Lines 116-142: without a firmware path the operator must agree to go on
      (lines 117-120). */
  function Decide(env: Environment, lines: seq<string>, pos: nat): (d: Decision)
    ensures d.pos >= pos
  {
    if FirmwarePathGiven(env) then Recommend(env, lines, pos, true)
    else
      match AskYes(lines, pos)
      case NoInput => Decision(false, Some(NoResult), pos)
      case Said(yes) => if yes then Recommend(env, lines, pos + 1, false) else Decision(false, Some(NoResult), pos + 1)
  }

  /** Lines 160-167: the UI route when logged in, else "forgot password". */
  function ResetSite(env: Environment): (s: Site)
    ensures s == ResetUi <==> env.loggedIn
    ensures s == ResetUi || s == ResetForgot
  {
    if env.loggedIn then ResetUi else ResetForgot
  }

  /** Lines 159-178. */
  function ResetSteps(env: Environment, words: seq<string>, p: Progress): (r: Progress)
    ensures p.ran <= r.ran
    ensures p.stop.None? ==> p.ran + [ResetSite(env)] <= r.ran
  {
    Then(Then(Then(p, ResetSite(env), env, words), ReachAfterReset, env, words), ReloginAfterReset, env, words)
  }

  /** A finished run: its result, the steps run, and the console position. */
  datatype Run = Run(result: WorkflowResult, ran: seq<Site>, pos: nat)

  /** Lines 186-193: 'n' returns "restart", 'b' returns None, anything else asks
      again; the end of the input raises `EOFError`, which returns None. */
  function Closing(words: seq<string>, p: Progress): (r: Run)
    ensures r.ran == p.ran && r.pos >= p.pos
  {
    var a := NextAnswer(words, p.pos, ClosingAnswers);
    Run(if a.Got? && a.word == "n" then NewBox else NoResult, p.ran, AnswerPos(words, p.pos, a))
  }

  /** Lines 180-193: the antenna check, then the closing question. */
  function Finish(env: Environment, words: seq<string>, p: Progress): (r: Run)
    ensures p.ran <= r.ran && r.pos >= p.pos
    ensures p.stop.None? ==> p.ran + [Wlan] <= r.ran
  {
    var w := Then(p, Wlan, env, words);
    if w.stop.Some? then Run(w.stop.value, w.ran, w.pos) else Closing(words, w)
  }

  /** Lines 116-193, once the mandatory steps have passed. */
  function AfterMandatory(env: Environment, lines: seq<string>, words: seq<string>, ran: seq<Site>, pos: nat): (r: Run)
    ensures ran <= r.ran && r.pos >= pos
  {
    var d := Decide(env, lines, pos);
    if d.stop.Some? then Run(d.stop.value, ran, d.pos)
    else
      var start := Progress(None, ran, d.pos);
      Finish(env, words, if d.reset then ResetSteps(env, words, start) else start)
  }

  /** The `try` block of `run_full_workflow` (lines 101-205), reading raw
      `lines` for the yes/no questions and their normalised `words` for the
      others. */
  function Workflow(env: Environment, lines: seq<string>, words: seq<string>, pos: nat): (r: Run)
    ensures r.pos >= pos
  {
    var m := Mandatory(env, words, pos);
    if m.stop.Some? then Run(m.stop.value, m.ran, m.pos)
    else AfterMandatory(env, lines, words, m.ran, m.pos)
  }

  class Orchestrator {
    /** `self.browser`, set when a run starts. */
    var browser: Browser?
    /** The steps run so far, in order. */
    ghost var ran: seq<Site>

    /** `WorkflowOrchestrator()` */
    constructor()
      ensures browser == null && ran == []
    {
      browser := null;
      ran := [];
    }

    /** `_run_step_with_retry`: two automatic calls, where an exception or an
        explicit `False` fails and anything else passes, then the operator's
        question. */
    method RunStepWithRetry(console: Console, calls: nat -> Call, from: nat) returns (result: RetryResult, next: nat)
      requires console.Valid()
      modifies console`pos
      ensures RetryRun(result, next, console.pos) == RetrySpec(calls, true, from, console.words, old(console.pos))
      decreases if console.pos <= |console.lines| then |console.lines| - console.pos else 0
    {
      ghost var words := console.words;
      var attempt := 0;
      while attempt < MaxAttempts
        invariant attempt <= MaxAttempts && console.pos == old(console.pos)
        invariant attempt >= 1 ==> Fails(calls(from), true)
        invariant attempt >= 2 ==> Fails(calls(from + 1), true)
      {
        match calls(from + attempt)
        case ReturnsOther =>
          return Passed, from + attempt + 1;
        case ReturnsFalse =>
          attempt := attempt + 1;
        case Raises =>
          attempt := attempt + 1;
      }
      AfterTwoFailures(calls, true, from, words, old(console.pos));
      ghost var spec := RetrySpec(calls, true, from, words, old(console.pos));
      var answer := console.Ask(RetryAnswers);
      if answer.EndOfInput? {
        assert spec == RetryRun(InputEnded, from + 2, console.pos);
        return InputEnded, from + 2;
      }
      assert console.pos == answer.next;
      if answer.word == "w" {
        assert spec == RetrySpec(calls, true, from + 2, words, console.pos);
        result, next := RunStepWithRetry(console, calls, from + 2);
        return;
      }
      assert spec == RetryRun(AnswerResult(answer.word), from + 2, console.pos);
      if answer.word == "b" {
        result := Aborted;
      } else if answer.word == "ü" {
        result := Passed;
      } else {
        result := Restart;
      }
      next := from + 2;
    }

    /** One `if not self._run_step_with_retry(...): return None`, with the
        handlers of lines 196-205 applied to what escapes the wrapper. */
    method Step(console: Console, env: Environment, site: Site) returns (stop: Option<WorkflowResult>)
      requires console.Valid()
      modifies console`pos, this`ran
      ensures Progress(stop, ran, console.pos) ==
                Then(Progress(None, old(ran), old(console.pos)), site, env, console.words)
    {
      ran := ran + [site];
      var result, _ := RunStepWithRetry(console, env.calls(site), 0);
      stop := StepOutcome(result);
    }

    /** Lines 116-142. */
    method DecideReset(console: Console, env: Environment) returns (reset: bool, stop: Option<WorkflowResult>)
      modifies console`pos
      ensures Decision(reset, stop, console.pos) == Decide(env, console.lines, old(console.pos))
    {
      reset := false;
      var given := FirmwarePathGiven(env);
      if !given {
        var goOn := console.AskYesNo();
        if goOn != Said(true) {
          return false, Some(NoResult);
        }
      }
      var performReset := false;
      if env.boxModel != Some("UNKNOWN") && given {
        if env.osVersion == Some("8.03") {
          var instead := console.AskYesNo();
          if instead.NoInput? {
            return false, Some(NoResult);
          }
          performReset := instead.yes;
        } else if TargetKnown(env.boxModel) {
          // `target_version not in self.fritzbox.os_version` raises TypeError
          return false, Some(NoResult);
        }
      }
      if !performReset {
        var anyway := console.AskYesNo();
        if anyway.NoInput? {
          return false, Some(NoResult);
        }
        performReset := anyway.yes;
      }
      return performReset, None;
    }

    /** The `try` block of `run_full_workflow` (lines 101-205). */
    method Attempt(console: Console, env: Environment) returns (result: WorkflowResult)
      requires console.Valid() && ran == []
      modifies console`pos, this`ran
      ensures Run(result, ran, console.pos) == Workflow(env, console.lines, console.words, old(console.pos))
    {
      ghost var words := console.words;
      ghost var p := Progress(None, [], console.pos);
      var stop := Step(console, env, Reach);
      p := Then(p, Reach, env, words);
      if stop.None? {
        stop := Step(console, env, Login);
        p := Then(p, Login, env, words);
      }
      if stop.None? {
        stop := Step(console, env, BoxModel);
        p := Then(p, BoxModel, env, words);
      }
      if stop.None? {
        stop := Step(console, env, FwVersion);
        p := Then(p, FwVersion, env, words);
      }
      if stop.None? {
        stop := Step(console, env, ExpertMode);
        p := Then(p, ExpertMode, env, words);
      }
      assert p == Mandatory(env, words, old(console.pos)) == Progress(stop, ran, console.pos);
      if stop.Some? {
        return stop.value;
      }
      ghost var m := p;
      var reset;
      reset, stop := DecideReset(console, env);
      if stop.Some? {
        return stop.value;
      }
      p := Progress(None, ran, console.pos);
      if reset {
        stop := Step(console, env, ResetSite(env));
        p := Then(p, ResetSite(env), env, words);
        if stop.None? {
          stop := Step(console, env, ReachAfterReset);
          p := Then(p, ReachAfterReset, env, words);
        }
        if stop.None? {
          stop := Step(console, env, ReloginAfterReset);
          p := Then(p, ReloginAfterReset, env, words);
        }
        assert p == ResetSteps(env, words, Progress(None, m.ran, Decide(env, console.lines, m.pos).pos));
        if stop.Some? {
          return stop.value;
        }
      }
      stop := Step(console, env, Wlan);
      p := Then(p, Wlan, env, words);
      if stop.Some? {
        return stop.value;
      }
      var answer := console.Ask(ClosingAnswers);
      result := if answer.Got? && answer.word == "n" then NewBox else NoResult;
    }

    /** `run_full_workflow`: a fresh browser, the `try` block, and
        `self.browser.quit()` in `finally` on every way out. */
    method RunFullWorkflow(console: Console, env: Environment) returns (result: WorkflowResult)
      requires console.Valid()
      modifies this, console`pos
      ensures browser != null && fresh(browser)
      ensures !browser.live && browser.log == [QuitDriver]
      ensures Run(result, ran, console.pos) == Workflow(env, console.lines, console.words, old(console.pos))
    {
      var b := new Browser();
      browser := b;
      ran := [];
      result := Attempt(console, env);
      var _ := b.Quit();
    }
  }
}
