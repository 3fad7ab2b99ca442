/** models.py: the older object model of the tool, a `Browser` wrapper and a
    `FritzBox` whose methods update its fields. The driver, the network and
    the file system are oracles handed to each operation; the console is a
    `Console`. */
module Models {
  import opened Common
  import opened Text
  import opened Environment
  import opened Prompt
  import opened LegacyLogin
  import opened FirmwareManager

  /** `Browser` (lines 15-71). This copy never drops its driver, so a click
      depends only on what each attempt finds. */
  class Browser {
    /** `klicken` (lines 43-58): up to `versuche` attempts; the first attempt
        whose element is found and clicked, directly or by script, returns True;
        the number of attempts made is returned too. */
    method Klicken(xpath: string, attempts: nat -> ClickAttempt, versuche: nat := 3) returns (ok: bool, tries: nat)
      ensures ok <==> FirstClick(attempts, versuche).Some?
      ensures ok ==> tries == FirstClick(attempts, versuche).value + 1
      ensures !ok ==> tries == versuche
    {
      var i := 0;
      while i < versuche
        invariant i <= versuche
        invariant forall j: nat :: j < i ==> !Succeeds(attempts(j))
      {
        if Succeeds(attempts(i)) {
          FirstClickAt(attempts, versuche, i);
          return true, i + 1;
        }
        i := i + 1;
      }
      NoClick(attempts, versuche);
      return false, versuche;
    }
  }

  /** The text between the brand and the model number on the system page. */
  const ModelLabel: string := "FRITZ!Box"

  /** `get_box_model` on the stripped text of the title element: the text
      after the last `FRITZ!Box`, stripped, or None when the label is absent. */
  function BoxModelFromText(text: string): (r: Option<string>)
    ensures r.Some? <==> Contains(Strip(text), ModelLabel)
  {
    var t := Strip(text);
    if Contains(t, ModelLabel) then Some(Strip(AfterLast(t, ModelLabel))) else None
  }

  /** `get_firmware_version` on the text of the version element: the stripped
      text, or None when it is empty. */
  function VersionFromText(text: string): (r: Option<string>)
    ensures r.Some? <==> Strip(text) != []
    ensures r.Some? ==> r.value == Strip(text)
  {
    if Strip(text) != [] then Some(Strip(text)) else None
  }

  /** `firmware_mapping` of `handle_firmware_or_reset`: model -> target version. */
  const Targets: map<string, string> := map["7590" := "8.03", "7530" := "8.02", "6890_LTE" := "7.57"]

  /** `FRITZ.Box_<model>-<target>.image` */
  function ImageName(model: string, target: string): (r: string)
    ensures |r| == |model| + |target| + 17
    ensures r[..10] == "FRITZ.Box_" && r[|r| - 6..] == ".image"
  {
    "FRITZ.Box_" + model + "-" + target + ".image"
  }

  /** `<dir>/firmware und recovery/<image>`, with `dir` the program's folder. */
  function ImagePath(dir: string, model: string, target: string): string
  {
    dir + "/" + FirmwareFolder + "/" + ImageName(model, target)
  }

  /** What `handle_firmware_or_reset` goes on to do. */
  datatype FirmwareChoice = NoFile | Update(file: string) | Reset | Keep

  /** The model, when it is set, not empty and in `Targets`. */
  predicate KnownTarget(boxModel: Option<string>)
  {
    boxModel.Some? && boxModel.value != [] && boxModel.value in Targets
  }

  /** The image found automatically: the shipped image of a known model when
      it exists, else the empty path. */
  function AutoImage(boxModel: Option<string>, dir: string, isFile: string -> bool): (r: string)
    ensures r != [] ==> KnownTarget(boxModel)
  {
    if KnownTarget(boxModel) && isFile(ImagePath(dir, boxModel.value, Targets[boxModel.value])) then
      ImagePath(dir, boxModel.value, Targets[boxModel.value])
    else []
  }

  /** The decision of `handle_firmware_or_reset` (lines 504-543) for model
      `boxModel`, current version `current` and the file the dialog returns
      (`chosen`, empty when it was cancelled): no file, no decision; otherwise
      update a known model that is not at its target; otherwise reset at
      "8.03"; otherwise nothing. */
  function Choose(boxModel: Option<string>, current: Option<string>, dir: string, isFile: string -> bool, chosen: string): (r: FirmwareChoice)
  {
    var auto := AutoImage(boxModel, dir, isFile);
    var file := if auto != [] then auto else chosen;
    if file == [] then NoFile
    else if KnownTarget(boxModel) && current != Some(Targets[boxModel.value]) then Update(file)
    else if current == Some("8.03") then Reset
    else Keep
  }

  /** `FritzBox` (lines 73-85 and the methods below). */
  class FritzBox {
    var browser: Browser
    var url: string
    var osVersion: Option<string>
    var isReset: bool
    var language: Option<string>
    var isLoggedIn: bool
    var password: Option<string>
    var boxModel: Option<string>
    var isWifiChecked: bool

    /** `FritzBox(driver)`: the default address and nothing known yet. */
    constructor(b: Browser)
      ensures browser == b && url == DefaultUrl
      ensures osVersion == None && !isReset && language == None && !isLoggedIn
      ensures password == None && boxModel == None && !isWifiChecked
    {
      browser := b;
      url := DefaultUrl;
      osVersion := None;
      isReset := false;
      language := None;
      isLoggedIn := false;
      password := None;
      boxModel := None;
      isWifiChecked := false;
    }

    /** `warte_auf_erreichbarkeit` (lines 87-113): `versuche` rounds over the
        four candidate addresses in order; the first that answers is adopted
        and the scan stops; without an answer the address stays as it was. */
    method WarteAufErreichbarkeit(probe: Probe, versuche: nat := DefaultScanRounds) returns (ok: bool)
      modifies this`url
      ensures ok <==> ScanUrl(probe, versuche).Some?
      ensures url == if ok then ScanUrl(probe, versuche).value else old(url)
    {
      var round := 0;
      while round < versuche
        invariant round <= versuche
        invariant url == old(url)
        invariant forall u: nat :: u < 4 * round ==> !Answers(probe, u)
      {
        var k := 0;
        while k < 4
          invariant k <= 4
          invariant url == old(url)
          invariant forall u: nat :: u < 4 * round + k ==> !Answers(probe, u)
        {
          RoundAndIndex(round, k);
          if probe(round, k) {
            ScanHitAt(probe, versuche, round, k);
            url := CandidateUrls[k];
            return true;
          }
          k := k + 1;
        }
        round := round + 1;
      }
      return false;
    }

    /** One pass of the loop of `login` (lines 151-189): asks for a password
        when there is none, stores it, looks for the password field or the
        language page, and types the password. `ends` says whether `login`
        ends here and how; otherwise `next` is the password the next attempt
        starts with. */
    method LoginAttemptStep(console: Console, t: LoginAttempt, last: bool, pw: string, ghost s: LoginState, ghost before: Option<string>)
      returns (ends: bool, end: LoginEnd, next: string)
      requires s.url == url && s.loggedIn == isLoggedIn && s.pos == console.pos && password == Stored(before, s.passwords)
      modifies this`url, this`password, this`isLoggedIn, console`pos
      ensures var a := OneAttempt(t, last, pw, console.lines, s);
              (ends <==> a.Ends?) && (ends ==> end == a.run.end) && (!ends ==> next == a.password) &&
              StateAfter(a) == LoginState(url, StateAfter(a).passwords, isLoggedIn, console.pos) &&
              password == Stored(before, StateAfter(a).passwords)
    {
      next := pw;
      if next == [] {
        var line := console.ReadLine();
        if line.None? {
          return true, InputEnded, next;
        }
        next := Strip(line.value);
      }
      password := Some(next);
      ghost var s1 := LoginState(url, s.passwords + [next], isLoggedIn, console.pos);
      assert OneAttempt(t, last, pw, console.lines, s) == AfterPassword(t, last, next, s1);
      ends, end, next := AttemptAfterPassword(t, last, next, s1);
    }

    /** The rest of an attempt, after `self.password = password`. */
    method AttemptAfterPassword(t: LoginAttempt, last: bool, pw: string, ghost s: LoginState)
      returns (ends: bool, end: LoginEnd, next: string)
      requires s.url == url && s.loggedIn == isLoggedIn
      modifies this`url, this`isLoggedIn
      ensures var a := AfterPassword(t, last, pw, s);
              (ends <==> a.Ends?) && (ends ==> end == a.run.end) && (!ends ==> next == a.password) &&
              StateAfter(a) == LoginState(url, s.passwords, isLoggedIn, s.pos)
    {
      next := pw;
      if t.loadRaises {
        return true, LoadRaised, next;
      }
      if !t.passField {
        var found := WarteAufErreichbarkeit(t.rescan);
        if !found {
          return true, LanguageCheckRaised, next;
        }
        if !t.languageShown {
          return false, GaveUp, next;
        }
      }
      if t.credentials != Rejected {
        isLoggedIn := true;
        if t.credentials == Accepted {
          return true, LoggedIn, next;
        }
      }
      if last {
        return true, FailedThrice, [];
      }
      return false, GaveUp, [];
    }

    /** `login(password)` (lines 144-189): the scan, then up to three attempts
        as `LoginSpec` describes them; each attempt stores its password in
        `self.password`, and `is_logged_in` is set once a password was
        accepted. */
    method Login(console: Console, probe: Probe, tries: nat -> LoginAttempt, given: Option<string>) returns (end: LoginEnd)
      modifies this`url, this`password, this`isLoggedIn, console`pos
      ensures var r := LoginSpec(probe, tries, PasswordText(given), console.lines,
                                 LoginState(old(url), [], old(isLoggedIn), old(console.pos)));
              end == r.end && url == r.state.url && isLoggedIn == r.state.loggedIn &&
              console.pos == r.state.pos && password == Stored(old(password), r.state.passwords)
    {
      var reachable := WarteAufErreichbarkeit(probe);
      if !reachable {
        return Unreachable;
      }
      var pw := PasswordText(given);
      ghost var s := LoginState(url, [], isLoggedIn, console.pos);
      var attempt := 0;
      while attempt < LoginAttempts
        invariant attempt == |s.passwords| <= LoginAttempts
        invariant s.url == url && s.loggedIn == isLoggedIn && s.pos == console.pos
        invariant password == Stored(old(password), s.passwords)
        invariant LoginSpec(probe, tries, PasswordText(given), console.lines, LoginState(old(url), [], old(isLoggedIn), old(console.pos)))
                  == AttemptsFrom(tries, pw, console.lines, s)
        decreases LoginAttempts - attempt
      {
        ghost var a := OneAttempt(tries(attempt), attempt + 1 == LoginAttempts, pw, console.lines, s);
        var ends, e, next := LoginAttemptStep(console, tries(attempt), attempt + 1 == LoginAttempts, pw, s, old(password));
        if ends {
          return e;
        }
        pw := next;
        s := a.state;
        attempt := attempt + 1;
      }
      return GaveUp;
    }

    /** `get_box_model` (lines 350-371): `title` is the text of the title
        element, None when loading the page or waiting for it raised. The model
        found is stored; otherwise the field keeps its value. */
    method GetBoxModel(title: Option<string>) returns (model: Option<string>)
      modifies this`boxModel
      ensures model == (if title.Some? then BoxModelFromText(title.value) else None)
      ensures boxModel == if model.Some? then model else old(boxModel)
    {
      model := None;
      if title.Some? {
        model := BoxModelFromText(title.value);
      }
      if model.Some? {
        boxModel := model;
      }
    }

    /** `get_firmware_version` (lines 330-348): `element` is the text of the
        version element, None when waiting for it raised (the clicks before it
        never raise in this copy). A version found is stored. */
    method GetFirmwareVersion(element: Option<string>) returns (version: Option<string>)
      modifies this`osVersion
      ensures version == (if element.Some? then VersionFromText(element.value) else None)
      ensures osVersion == if version.Some? then version else old(osVersion)
    {
      version := None;
      if element.Some? {
        version := VersionFromText(element.value);
      }
      if version.Some? {
        osVersion := version;
      }
    }

    /** `handle_firmware_or_reset` (lines 488-543): reads the model when none
        is stored, reads the version, and decides with `Choose`. The update and
        the reset themselves are not part of this model. */
    method HandleFirmwareOrReset(title: Option<string>, element: Option<string>, dir: string, isFile: string -> bool, chosen: string)
      returns (choice: FirmwareChoice)
      modifies this`boxModel, this`osVersion
      ensures old(boxModel).Some? && old(boxModel).value != [] ==> boxModel == old(boxModel)
      ensures old(boxModel).None? || old(boxModel).value == [] ==>
                boxModel == if title.Some? && BoxModelFromText(title.value).Some? then BoxModelFromText(title.value) else old(boxModel)
      ensures osVersion == if element.Some? && VersionFromText(element.value).Some? then VersionFromText(element.value) else old(osVersion)
      ensures choice == Choose(boxModel, if element.Some? then VersionFromText(element.value) else None, dir, isFile, chosen)
    {
      if boxModel.None? || boxModel.value == [] {
        var _ := GetBoxModel(title);
      }
      var current := GetFirmwareVersion(element);
      var auto: string := [];
      if boxModel.Some? && boxModel.value != [] && boxModel.value in Targets {
        var target := Targets[boxModel.value];
        if isFile(ImagePath(dir, boxModel.value, target)) {
          auto := ImagePath(dir, boxModel.value, target);
        }
      }
      var file := auto;
      if file == [] {
        file := chosen;
        if file == [] {
          return NoFile;
        }
      }
      if boxModel.Some? && boxModel.value != [] && boxModel.value in Targets && current != Some(Targets[boxModel.value]) {
        choice := Update(file);
      } else if current == Some("8.03") {
        choice := Reset;
      } else {
        choice := Keep;
      }
    }

    /** `skip_configuration` (lines 545-560): two rounds, each waiting for
        `Button1` and clicking it; the first round without the button (or whose
        click raises) ends the method with False. Returns the result and the
        number of rounds run. */
    method SkipConfiguration(rounds: nat -> ButtonRound) returns (ok: bool, run: nat)
      ensures ok == SkipConfigured(rounds)
      ensures run == SkipRoundsRun(rounds)
    {
      var i := 0;
      while i < 2
        invariant i <= 2
        invariant forall j: nat :: j < i ==> rounds(j).Pressed?
      {
        if !rounds(i).Pressed? {
          return false, i + 1;
        }
        i := i + 1;
      }
      return true, 2;
    }
  }
}
