/** fritz_steps.py: the oldest copy of the tool, written as module functions
    over two module globals, the box address `FRITZ_URL` and the cache
    `tim_version_cache` that the version check fills and the update-or-reset
    step reads. The globals are the fields of a `Script`; the WebDriver, the
    network and the console are handed to each operation. */
module FritzSteps {
  import opened Common
  import opened Text
  import opened Environment
  import opened Prompt
  import opened LegacyLogin
  import opened Models

  /** A Selenium driver as `beende_browser` sees it: how often `quit()` was
      called on it. */
  class Driver {
    var quits: nat

    constructor ()
      ensures quits == 0
    {
      quits := 0;
    }
  }

  /** `beende_browser(driver)` (lines 11-13): quits the driver when there is
      one, and does nothing for None. */
  method BeendeBrowser(driver: Driver?)
    modifies driver
    ensures driver != null ==> driver.quits == old(driver.quits) + 1
  {
    if driver != null {
      driver.quits := driver.quits + 1;
    }
  }

  /** What `tim_update_oder_reset` does with the cached version. */
  datatype Route = FactoryResetRoute | FirmwareUpdateRoute(path: string)

  /** `tim_update_oder_reset` (lines 421-427): the factory reset exactly when
      the cached version is the string "8.03", the firmware update with the
      given path otherwise (also when no version was cached). */
  function UpdateOrReset(cached: Option<string>, path: string): (r: Route)
    ensures r.FactoryResetRoute? <==> cached == Some("8.03")
    ensures r.FirmwareUpdateRoute? ==> r.path == path
  {
    if cached == Some("8.03") then FactoryResetRoute else FirmwareUpdateRoute(path)
  }

  /** How the box answers `tim_factory_reset` (lines 367-418): whether the
      menu entry `mSave` is already shown, else whether the click on `sys`
      goes through (the free `klicken` that the module imports is taken to
      raise when the click fails, as the `try` around it expects); whether the OK button appears within the wait; the scan
      of `ist_sprachauswahl`; and whether its language page shows. */
  datatype ResetRun = ResetRun(menuOpen: bool, systemClicked: bool, okClicked: bool, rescan: Probe, languagePage: bool)

  /** How `tim_factory_reset` ends: it returns when the menu cannot be opened;
      `raise("...")` at line 412 raises `TypeError` (a string is not an
      exception) when the OK button does not come; `ist_sprachauswahl` raises
      when its scan finds no box; otherwise it returns, having checked the
      language page or not. */
  datatype ResetEnd = MenuFailed | OkTypeError | ResetUnreachable | ResetDone(verified: bool)

  /** The end of `tim_factory_reset`. The four clicks of lines 381-391 catch
      their own errors, so only the click on `sys` can make the first block
      fail. */
  function FactoryResetEnd(r: ResetRun): (e: ResetEnd)
    ensures e == MenuFailed <==> !r.menuOpen && !r.systemClicked
    ensures e == OkTypeError ==> !r.okClicked
    ensures e.ResetDone? ==> r.okClicked && ScanUrl(r.rescan, DefaultScanRounds).Some? && e.verified == r.languagePage
  {
    if !r.menuOpen && !r.systemClicked then MenuFailed
    else if !r.okClicked then OkTypeError
    else if ScanUrl(r.rescan, DefaultScanRounds).None? then ResetUnreachable
    else ResetDone(r.languagePage)
  }

  /** The version check decides the route: after it read the text of the
      version field, the factory reset runs exactly when that text is "8.03"
      up to surrounding blanks; an empty field clears the cache, so the update
      runs even where an earlier check had found "8.03". */
  lemma ResetExactlyAt803(text: string, path: string)
    ensures UpdateOrReset(VersionFromText(text), path).FactoryResetRoute? <==> Strip(text) == "8.03"
    ensures Strip(text) == [] ==> UpdateOrReset(VersionFromText(text), path) == FirmwareUpdateRoute(path)
  {
  }

  /** A missing OK button ends the reset with the `TypeError` of line 412,
      never with a normal return, whatever the box does afterwards. */
  lemma MissingOkRaises(r: ResetRun)
    requires r.menuOpen || r.systemClicked
    ensures FactoryResetEnd(r) == OkTypeError <==> !r.okClicked
  {
  }

  /** The step list of `erstelle_standard_steps` (lines 276-282): a title and
      what the step calls. */
  datatype StepKind = LoginStep(password: Option<string>) | VersionStep | UpdateOrResetStep(path: string) | WlanStep
  datatype Step = Step(title: string, kind: StepKind)

  /** `erstelle_standard_steps(password, firmware_pfad)`: login with the
      password, the version check, update or reset with the firmware path, and
      the antenna check, in that order. */
  function ErstelleStandardSteps(password: Option<string>, path: string): (steps: seq<Step>)
    ensures |steps| == 4
    ensures steps[0].kind == LoginStep(password) && steps[1].kind == VersionStep
    ensures steps[2].kind == UpdateOrResetStep(path) && steps[3].kind == WlanStep
    ensures forall i, j :: 0 <= i < j < |steps| ==> steps[i].title != steps[j].title
  {
    [ Step("Login durchführen", LoginStep(password)),
      Step("Firmware-Version prüfen", VersionStep),
      Step("Firmware-Update oder Reset durchführen", UpdateOrResetStep(path)),
      Step("WLAN-Antennen prüfen", WlanStep) ]
  }

  /** What `get_steps_from_branding` finds on the start page: loading it
      raised, no element names a brand, or the text of the element that does. */
  datatype BrandingPage = LoadFailed | NoBrandElement | BrandElement(text: string)

  /** The branding the function reports on the console. */
  datatype Branding = Tim | Standard | DetectionFailed

  datatype BrandedSteps = BrandedSteps(branding: Branding, steps: seq<Step>)

  /** `get_steps_from_branding` (lines 284-308): "tim" in the lower-cased
      text of the brand element means the TIM branding; whatever it finds, and
      also when loading the page raises, it returns the standard steps. */
  function GetStepsFromBranding(page: BrandingPage, password: Option<string>, path: string): (r: BrandedSteps)
    ensures r.steps == ErstelleStandardSteps(password, path)
    ensures r.branding == DetectionFailed <==> page == LoadFailed
    ensures r.branding == Tim <==> page.BrandElement? && Contains(Lower(page.text), "tim")
  {
    var steps := ErstelleStandardSteps(password, path);
    if page.LoadFailed? then BrandedSteps(DetectionFailed, steps)
    else
      var text := if page.BrandElement? then Lower(page.text) else [];
      if Contains(text, "tim") then BrandedSteps(Tim, steps) else BrandedSteps(Standard, steps)
  }

  /** The branding changes only what is reported: any two start pages give
      the same steps. */
  lemma BrandingKeepsSteps(p: BrandingPage, q: BrandingPage, password: Option<string>, path: string)
    ensures GetStepsFromBranding(p, password, path).steps == GetStepsFromBranding(q, password, path).steps
  {
  }

  /** The brand is matched without regard to case: "TIM" is the TIM
      branding. */
  lemma UpperCaseTimIsTim(password: Option<string>, path: string)
    ensures GetStepsFromBranding(BrandElement("TIM"), password, path).branding == Tim
  {
    assert Lower("TIM") == "tim";
    assert OccursAt("tim", "tim", 0);
  }

  /** `skip_configuration` (lines 430-445), the same two rounds as in
      models.py: True only when `Button1` came and was clicked in both. */
  method SkipConfiguration(rounds: nat -> ButtonRound) returns (ok: bool)
    ensures ok == SkipConfigured(rounds)
    ensures ok ==> rounds(0).Pressed? && rounds(1).Pressed?
  {
    var i := 0;
    while i < 2
      invariant i <= 2
      invariant forall j: nat :: j < i ==> rounds(j).Pressed?
    {
      if !rounds(i).Pressed? {
        return false;
      }
      i := i + 1;
    }
    return true;
  }

  /** The module globals of fritz_steps.py (lines 8-9). */
  class Script {
    /** `FRITZ_URL` */
    var fritzUrl: string
    /** `tim_version_cache["version"]` */
    var timVersion: Option<string>

    constructor ()
      ensures fritzUrl == DefaultUrl && timVersion == None
    {
      fritzUrl := DefaultUrl;
      timVersion := None;
    }

    /** `warte_auf_fritzbox` (lines 15-39): `versuche` rounds over the four
        addresses in order; the first that answers 200 becomes `FRITZ_URL` and
        the scan stops; without an answer `FRITZ_URL` keeps its value. */
    method WarteAufFritzbox(probe: Probe, versuche: nat := DefaultScanRounds) returns (ok: bool)
      modifies this`fritzUrl
      ensures ok <==> ScanUrl(probe, versuche).Some?
      ensures fritzUrl == if ok then ScanUrl(probe, versuche).value else old(fritzUrl)
    {
      var round := 0;
      while round < versuche
        invariant round <= versuche
        invariant fritzUrl == old(fritzUrl)
        invariant forall u: nat :: u < 4 * round ==> !Answers(probe, u)
      {
        var k := 0;
        while k < 4
          invariant k <= 4
          invariant fritzUrl == old(fritzUrl)
          invariant forall u: nat :: u < 4 * round + k ==> !Answers(probe, u)
        {
          RoundAndIndex(round, k);
          if probe(round, k) {
            ScanHitAt(probe, versuche, round, k);
            fritzUrl := CandidateUrls[k];
            return true;
          }
          k := k + 1;
        }
        round := round + 1;
      }
      return false;
    }

    /** One pass of the loop of `login` (lines 74-113). Unlike models.py this
        copy keeps the password in a local variable only and has no login
        flag; the ghost state `s` still follows the shared model. */
    method LoginAttemptStep(console: Console, t: LoginAttempt, last: bool, pw: string, ghost s: LoginState)
      returns (ends: bool, end: LoginEnd, next: string)
      requires s.url == fritzUrl && s.pos == console.pos
      modifies this`fritzUrl, console`pos
      ensures var a := OneAttempt(t, last, pw, console.lines, s);
              (ends <==> a.Ends?) && (ends ==> end == a.run.end) && (!ends ==> next == a.password) &&
              StateAfter(a).url == fritzUrl && StateAfter(a).pos == console.pos
    {
      next := pw;
      if next == [] {
        var line := console.ReadLine();
        if line.None? {
          return true, InputEnded, next;
        }
        next := Strip(line.value);
      }
      ghost var s1 := LoginState(fritzUrl, s.passwords + [next], s.loggedIn, console.pos);
      assert OneAttempt(t, last, pw, console.lines, s) == AfterPassword(t, last, next, s1);
      ends, end, next := AttemptAfterPassword(t, last, next, s1);
    }

    /** The rest of an attempt, once the password is known. */
    method AttemptAfterPassword(t: LoginAttempt, last: bool, pw: string, ghost s: LoginState)
      returns (ends: bool, end: LoginEnd, next: string)
      requires s.url == fritzUrl
      modifies this`fritzUrl
      ensures var a := AfterPassword(t, last, pw, s);
              (ends <==> a.Ends?) && (ends ==> end == a.run.end) && (!ends ==> next == a.password) &&
              StateAfter(a).url == fritzUrl
    {
      next := pw;
      if t.loadRaises {
        return true, LoadRaised, next;
      }
      if !t.passField {
        var found := WarteAufFritzbox(t.rescan);
        if !found {
          return true, LanguageCheckRaised, next;
        }
        if !t.languageShown {
          return false, GaveUp, next;
        }
      }
      if t.credentials == Accepted {
        return true, LoggedIn, next;
      }
      if last {
        return true, FailedThrice, [];
      }
      return false, GaveUp, [];
    }

    /** `login(driver, password)` (lines 69-113): the scan, then up to three
        attempts as `LoginSpec` describes them. */
    method Login(console: Console, probe: Probe, tries: nat -> LoginAttempt, given: Option<string>) returns (end: LoginEnd)
      modifies this`fritzUrl, console`pos
      ensures var r := LoginSpec(probe, tries, PasswordText(given), console.lines,
                                 LoginState(old(fritzUrl), [], false, old(console.pos)));
              end == r.end && fritzUrl == r.state.url && console.pos == r.state.pos
    {
      var reachable := WarteAufFritzbox(probe);
      if !reachable {
        return Unreachable;
      }
      var pw := PasswordText(given);
      ghost var s := LoginState(fritzUrl, [], false, console.pos);
      var attempt := 0;
      while attempt < LoginAttempts
        invariant attempt == |s.passwords| <= LoginAttempts
        invariant s.url == fritzUrl && s.pos == console.pos
        invariant LoginSpec(probe, tries, PasswordText(given), console.lines, LoginState(old(fritzUrl), [], false, old(console.pos)))
                  == AttemptsFrom(tries, pw, console.lines, s)
        decreases LoginAttempts - attempt
      {
        ghost var a := OneAttempt(tries(attempt), attempt + 1 == LoginAttempts, pw, console.lines, s);
        var ends, e, next := LoginAttemptStep(console, tries(attempt), attempt + 1 == LoginAttempts, pw, s);
        if ends {
          return e;
        }
        pw := next;
        s := a.state;
        attempt := attempt + 1;
      }
      return GaveUp;
    }

    /** `firmware_version_pruefen_wrapper` (lines 272-274, with
        `firmware_version_pruefen` at 258-270): `element` is the text of the
        version field, None when one of the three clicks or the wait raised.
        The stripped text, or None when it is empty, replaces the cached
        version; an exception leaves the cache alone and is passed on. */
    method FirmwareVersionPruefenWrapper(element: Option<string>) returns (raised: bool)
      modifies this`timVersion
      ensures raised <==> element.None?
      ensures !raised ==> timVersion == VersionFromText(element.value)
      ensures raised ==> timVersion == old(timVersion)
    {
      if element.None? {
        return true;
      }
      timVersion := VersionFromText(element.value);
      return false;
    }

    /** `tim_factory_reset` (lines 367-418); the scan of `ist_sprachauswahl`
        may move `FRITZ_URL`. */
    method TimFactoryReset(r: ResetRun) returns (end: ResetEnd)
      modifies this`fritzUrl
      ensures end == FactoryResetEnd(r)
      ensures fritzUrl == if end.ResetDone? then ScanUrl(r.rescan, DefaultScanRounds).value else old(fritzUrl)
    {
      if !r.menuOpen && !r.systemClicked {
        return MenuFailed;
      }
      if !r.okClicked {
        return OkTypeError;
      }
      var reachable := WarteAufFritzbox(r.rescan);
      if !reachable {
        return ResetUnreachable;
      }
      return ResetDone(r.languagePage);
    }

    /** `tim_update_oder_reset(driver, firmware_pfad)` (lines 421-427): reads
        the cache and runs the factory reset or the update. The update's own
        clicks are not part of this model; `reset` is None when the update
        route was taken. */
    method TimUpdateOderReset(path: string, r: ResetRun) returns (route: Route, reset: Option<ResetEnd>)
      modifies this`fritzUrl
      ensures route == UpdateOrReset(old(timVersion), path)
      ensures reset.Some? <==> route.FactoryResetRoute?
      ensures reset.Some? ==> reset.value == FactoryResetEnd(r)
      ensures reset.None? ==> fritzUrl == old(fritzUrl)
      ensures reset.Some? ==> fritzUrl == if reset.value.ResetDone? then ScanUrl(r.rescan, DefaultScanRounds).value else old(fritzUrl)
    {
      route := UpdateOrReset(timVersion, path);
      reset := None;
      if route.FactoryResetRoute? {
        var e := TimFactoryReset(r);
        reset := Some(e);
      }
    }
  }
}
