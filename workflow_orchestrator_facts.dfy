/** What `run_full_workflow` promises, stated on its model: the order of the
    steps, where a run ends, when it returns "restart", what the decision block
    does with the firmware table, and which reset route it takes. */
module WorkflowOrchestratorFacts {
  import opened Common
  import opened Prompt
  import opened Retry
  import opened FirmwareManager
  import opened WorkflowOrchestrator

  /** A step whose wrapper does not pass is the last one run, and the run ends
      with what the wrapper's end maps to. */
  lemma RefusedStepEndsRun(p: Progress, site: Site, env: Environment, words: seq<string>)
    requires p.stop.None?
    requires RetrySpec(env.calls(site), true, 0, words, p.pos).result != Passed
    ensures var r := Then(p, site, env, words);
            r.stop == StepOutcome(RetrySpec(env.calls(site), true, 0, words, p.pos).result) && r.stop.Some? &&
            r.ran == p.ran + [site]
  {
  }

  lemma ExtendsPrefix(p: Progress, r: Progress, k: nat)
    requires k < |MandatorySites| && p.ran == MandatorySites[..k]
    requires p.stop.Some? ==> r == p
    requires p.stop.None? ==> r.ran == p.ran + [MandatorySites[k]]
    ensures (r.ran == p.ran && r.stop.Some?) || (r.ran == MandatorySites[..k + 1] && p.stop.None?)
  {
    assert MandatorySites[..k] + [MandatorySites[k]] == MandatorySites[..k + 1];
  }

  /** The mandatory steps run in the order of lines 102-114, each only after
      the previous one passed. */
  lemma MandatoryInOrder(env: Environment, words: seq<string>, pos: nat)
    ensures var m := Mandatory(env, words, pos);
            1 <= |m.ran| <= |MandatorySites| && m.ran == MandatorySites[..|m.ran|] &&
            (m.stop.None? ==> m.ran == MandatorySites)
  {
    var p0 := Progress(None, [], pos);
    var p1 := Then(p0, Reach, env, words);
    ExtendsPrefix(p0, p1, 0);
    var p2 := Then(p1, Login, env, words);
    ExtendsPrefix(p1, p2, |p1.ran|);
    var p3 := Then(p2, BoxModel, env, words);
    ExtendsPrefix(p2, p3, |p2.ran|);
    var p4 := Then(p3, FwVersion, env, words);
    ExtendsPrefix(p3, p4, |p3.ran|);
    var p5 := Then(p4, ExpertMode, env, words);
    ExtendsPrefix(p4, p5, |p4.ran|);
  }

  /** Every run starts with the reachability check, and whatever ran after the
      mandatory steps ran after all five of them. */
  lemma RunStartsWithMandatorySteps(env: Environment, lines: seq<string>, words: seq<string>, pos: nat)
    ensures var r := Workflow(env, lines, words, pos);
            1 <= |r.ran| && r.ran[0] == Reach &&
            (|r.ran| <= |MandatorySites| ==> r.ran == MandatorySites[..|r.ran|]) &&
            (|r.ran| > |MandatorySites| ==> r.ran[..|MandatorySites|] == MandatorySites)
  {
    MandatoryInOrder(env, words, pos);
    var m := Mandatory(env, words, pos);
    if m.stop.None? {
      var d := Decide(env, lines, m.pos);
      if d.stop.None? {
        var start := Progress(None, m.ran, d.pos);
        var p := if d.reset then ResetSteps(env, words, start) else start;
        var w := Then(p, Wlan, env, words);
        assert |p.ran| >= 5 && p.ran[..5] == MandatorySites;
        assert w.ran[..5] == MandatorySites;
      }
    }
  }

  /** "restart" comes only from the operator: some line read during the run
      was 'n' (a wrapper's "new box" or the closing question). */
  predicate AskedForNewBox(words: seq<string>, from: nat, to: nat)
  {
    exists j :: from <= j < to && j < |words| && words[j] == "n"
  }

  lemma ThenKeepsNewBoxAsked(p: Progress, site: Site, env: Environment, words: seq<string>, start: nat)
    requires start <= p.pos
    requires p.stop == Some(NewBox) ==> AskedForNewBox(words, start, p.pos)
    ensures var r := Then(p, site, env, words);
            start <= r.pos && (r.stop == Some(NewBox) ==> AskedForNewBox(words, start, r.pos))
  {
    if p.stop.None? {
      var w := RetrySpec(env.calls(site), true, 0, words, p.pos);
      OnlyTheOperatorStops(env.calls(site), true, 0, words, p.pos);
      if w.result == Restart {
        assert words[w.pos - 1] == "n";
      }
    }
  }

  lemma MandatoryNewBoxAsked(env: Environment, words: seq<string>, pos: nat)
    ensures var m := Mandatory(env, words, pos);
            pos <= m.pos && (m.stop == Some(NewBox) ==> AskedForNewBox(words, pos, m.pos))
  {
    var p0 := Progress(None, [], pos);
    var p1 := Then(p0, Reach, env, words);
    ThenKeepsNewBoxAsked(p0, Reach, env, words, pos);
    var p2 := Then(p1, Login, env, words);
    ThenKeepsNewBoxAsked(p1, Login, env, words, pos);
    var p3 := Then(p2, BoxModel, env, words);
    ThenKeepsNewBoxAsked(p2, BoxModel, env, words, pos);
    var p4 := Then(p3, FwVersion, env, words);
    ThenKeepsNewBoxAsked(p3, FwVersion, env, words, pos);
    ThenKeepsNewBoxAsked(p4, ExpertMode, env, words, pos);
  }

  lemma ResetNewBoxAsked(env: Environment, words: seq<string>, p: Progress)
    requires p.stop.None?
    ensures var r := ResetSteps(env, words, p);
            p.pos <= r.pos && (r.stop == Some(NewBox) ==> AskedForNewBox(words, p.pos, r.pos))
  {
    var q1 := Then(p, ResetSite(env), env, words);
    ThenKeepsNewBoxAsked(p, ResetSite(env), env, words, p.pos);
    var q2 := Then(q1, ReachAfterReset, env, words);
    ThenKeepsNewBoxAsked(q1, ReachAfterReset, env, words, p.pos);
    ThenKeepsNewBoxAsked(q2, ReloginAfterReset, env, words, p.pos);
  }

  lemma FinishNewBoxAsked(env: Environment, words: seq<string>, p: Progress, start: nat)
    requires start <= p.pos
    requires p.stop == Some(NewBox) ==> AskedForNewBox(words, start, p.pos)
    ensures var r := Finish(env, words, p);
            r.result == NewBox ==> AskedForNewBox(words, start, r.pos)
  {
    var w := Then(p, Wlan, env, words);
    ThenKeepsNewBoxAsked(p, Wlan, env, words, start);
    if w.stop.None? {
      var a := NextAnswer(words, w.pos, ClosingAnswers);
      if a.Got? && a.word == "n" {
        assert words[a.next - 1] == "n";
      }
    }
  }

  lemma AfterMandatoryNewBoxAsked(env: Environment, lines: seq<string>, words: seq<string>, ran: seq<Site>, pos: nat)
    ensures var r := AfterMandatory(env, lines, words, ran, pos);
            r.result == NewBox ==> AskedForNewBox(words, pos, r.pos)
  {
    var d := Decide(env, lines, pos);
    if d.stop.None? {
      var start := Progress(None, ran, d.pos);
      if d.reset {
        ResetNewBoxAsked(env, words, start);
        FinishNewBoxAsked(env, words, ResetSteps(env, words, start), pos);
      } else {
        FinishNewBoxAsked(env, words, start, pos);
      }
    }
  }

  lemma NewBoxOnlyOnRequest(env: Environment, lines: seq<string>, words: seq<string>, pos: nat)
    ensures var r := Workflow(env, lines, words, pos);
            r.result == NewBox ==> AskedForNewBox(words, pos, r.pos)
  {
    MandatoryNewBoxAsked(env, words, pos);
    var m := Mandatory(env, words, pos);
    if m.stop.None? {
      AfterMandatoryNewBoxAsked(env, lines, words, m.ran, m.pos);
      var r := AfterMandatory(env, lines, words, m.ran, m.pos);
      if r.result == NewBox {
        var j :| m.pos <= j < r.pos && j < |words| && words[j] == "n";
        assert pos <= j;
      }
    }
  }

  /** The closing question (lines 186-193): the first 'n' or 'b' decides; 'n'
      returns "restart", 'b' returns None; with neither left the input ends and
      the run returns None. */
  lemma ClosingAnswerDecides(words: seq<string>, p: Progress, k: nat)
    requires p.pos <= k < |words| && words[k] in ClosingAnswers
    requires forall j :: p.pos <= j < k ==> words[j] !in ClosingAnswers
    ensures Closing(words, p) == Run(if words[k] == "n" then NewBox else NoResult, p.ran, k + 1)
  {
    NextAnswerAt(words, p.pos, k, ClosingAnswers);
  }

  lemma ClosingWithoutAnswer(words: seq<string>, p: Progress)
    requires forall j :: p.pos <= j < |words| ==> words[j] !in ClosingAnswers
    ensures Closing(words, p).result == NoResult
  {
    NextAnswerNone(words, p.pos, ClosingAnswers);
  }

  /** Line 132 raises `TypeError` for every model in the table whose version is
      not exactly "8.03" once a firmware path is given: no question is asked,
      no reset is made, the antennas are not checked, and the run returns None. */
  lemma KnownModelEndsAtTypeError(env: Environment, lines: seq<string>, words: seq<string>, pos: nat)
    requires Mandatory(env, words, pos).stop.None?
    requires FirmwarePathGiven(env) && TargetKnown(env.boxModel) && env.osVersion != Some("8.03")
    ensures Workflow(env, lines, words, pos) == Run(NoResult, MandatorySites, Mandatory(env, words, pos).pos)
  {
    TableModels(env.boxModel.value);
    MandatoryInOrder(env, words, pos);
  }

  /** With version "8.03" and a 'j' to the reset question the box is reset
      and the "reset anyway?" question is not asked; with any other answer it
      is. */
  lemma Version803Question(env: Environment, lines: seq<string>, pos: nat)
    requires FirmwarePathGiven(env) && env.boxModel != Some("UNKNOWN") && env.osVersion == Some("8.03")
    requires pos < |lines|
    ensures lines[pos] == "j" ==> Decide(env, lines, pos) == Decision(true, None, pos + 1)
    ensures lines[pos] != "j" && lines[pos] != "J" ==> Decide(env, lines, pos) == ResetAnyway(lines, pos + 1)
  {
  }

  /** Without a firmware path, anything but 'j' to "continue anyway?" ends the
      run with None before any reset question. */
  lemma NoFirmwarePathNeedsConsent(env: Environment, lines: seq<string>, pos: nat)
    requires !FirmwarePathGiven(env)
    ensures pos < |lines| && lines[pos] != "j" && lines[pos] != "J" ==>
              Decide(env, lines, pos) == Decision(false, Some(NoResult), pos + 1)
    ensures pos >= |lines| ==> Decide(env, lines, pos) == Decision(false, Some(NoResult), pos)
  {
  }

  /** A reset runs the UI route when logged in and the "forgot password" route
      otherwise, right after the mandatory steps; without a reset the antennas
      are checked right after them. */
  lemma ResetRoute(env: Environment, lines: seq<string>, words: seq<string>, pos: nat)
    requires Mandatory(env, words, pos).stop.None?
    requires Decide(env, lines, Mandatory(env, words, pos).pos).stop.None?
    ensures var r := Workflow(env, lines, words, pos);
            |r.ran| > 5 &&
            (Decide(env, lines, Mandatory(env, words, pos).pos).reset ==> r.ran[5] == (if env.loggedIn then ResetUi else ResetForgot)) &&
            (!Decide(env, lines, Mandatory(env, words, pos).pos).reset ==> r.ran == MandatorySites + [Wlan])
  {
    MandatoryInOrder(env, words, pos);
    var m := Mandatory(env, words, pos);
    var d := Decide(env, lines, m.pos);
    var start := Progress(None, m.ran, d.pos);
    if d.reset {
      var q1 := Then(start, ResetSite(env), env, words);
      assert q1.ran == MandatorySites + [ResetSite(env)];
    }
  }
}
