/** What the session controller of `FritzBox` promises, stated over the
    specification functions that its methods are proved against. */
module FritzboxApiFacts {
  import opened Common
  import opened Text
  import opened Environment
  import opened BrowserUtils
  import opened FritzboxText
  import opened FritzboxApi

  // ----- login -----

  /** A box that does not answer: `login` returns False and changes nothing.
      Otherwise it adopts the address found and keeps the password given
      unless that one is empty or missing. */
  lemma LoginAdoptsAddressAndPassword(f: BoxFields, given: Option<string>, env: LoginEnv, forceReload: bool)
    ensures ScanUrl(env.probe, DefaultScanRounds).None? ==>
              LoginSpec(f, given, env, forceReload) == LoginRun(Returned(false), f, [])
    ensures ScanUrl(env.probe, DefaultScanRounds).Some? ==>
              LoginSpec(f, given, env, forceReload).fields.url == ScanUrl(env.probe, DefaultScanRounds).value
              && LoginSpec(f, given, env, forceReload).fields.password == KeptPassword(f.password, given)
  {
    if ScanUrl(env.probe, DefaultScanRounds).Some? && !env.setupFails {
      var u := ScanUrl(env.probe, DefaultScanRounds).value;
      var f1 := f.(url := u, password := KeptPassword(f.password, given));
      var a := AuthSpec(f1, env, forceReload);
      assert a.fields.url == u && a.fields.password == f1.password;
    }
  }

  /** Unless the reload is forced, a session whose menu is ready right after
      the reload makes `login` return True at once: no credential is typed and
      the only driver calls are the reload's. */
  lemma ReadySessionSkipsCredentials(f: BoxFields, given: Option<string>, env: LoginEnv)
    requires ScanUrl(env.probe, DefaultScanRounds).Some? && !env.setupFails
    requires Ready(env.initial, true)
    ensures LoginSpec(f, given, env, false).outcome == Returned(true)
    ensures LoginSpec(f, given, env, false).fields.isLoggedIn
    ensures LoginSpec(f, given, env, false).log
            == ReloadCalls(ScanUrl(env.probe, DefaultScanRounds).value, env.ts, true, true)
  {
  }

  /** When `login` returns a truth value after the dialog sweep, the session
      flag equals it; in particular a True from `login` always leaves the
      flag set. */
  lemma LoginTrueMeansLoggedIn(f: BoxFields, given: Option<string>, env: LoginEnv, forceReload: bool)
    ensures LoginSpec(f, given, env, forceReload).outcome == Returned(true) ==>
              LoginSpec(f, given, env, forceReload).fields.isLoggedIn
    ensures ScanUrl(env.probe, DefaultScanRounds).Some? && !env.setupFails
            && LoginSpec(f, given, env, forceReload).outcome.Returned? ==>
              LoginSpec(f, given, env, forceReload).fields.isLoggedIn
              == LoginSpec(f, given, env, forceReload).outcome.ok
  {
  }

  /** No driver call of the language step or of the waits types anything. */
  lemma NoKeysBeforeTyping(url: string, switched: bool, loads: nat)
    ensures forall i :: 0 <= i < |LanguageLog(url, switched) + Repeat(Get(url), loads)| ==>
              !(LanguageLog(url, switched) + Repeat(Get(url), loads))[i].SendKeys?
  {
    var l: seq<DriverCall> := LanguageLog(url, switched);
    var r: seq<DriverCall> := Repeat(Get(url), loads);
    forall i | 0 <= i < |l + r|
      ensures !(l + r)[i].SendKeys?
    {
      if i >= |l| {
        assert (l + r)[i] == r[i - |l|];
      }
    }
  }

  /** Within the part of `login` after the reload, the only text typed is
      the stored password, into the password field. */
  lemma AuthTypesStoredPassword(f: BoxFields, env: LoginEnv, forceReload: bool, k: nat)
    requires k < |AuthSpec(f, env, forceReload).log|
    requires AuthSpec(f, env, forceReload).log[k].SendKeys?
    ensures f.password.Some? && AuthSpec(f, env, forceReload).log[k] == SendKeys(UiPass, f.password.value)
  {
    var e := EntrySpec(f.url, f.password, env);
    assert AuthSpec(f, env, forceReload).log == e.log;
    var w := PasswordFieldFound(env.passwordWaits);
    var loads := if w.Some? then w.value + 1 else |env.passwordWaits|;
    var pre := LanguageLog(f.url, LanguageSwitched(env.language, true)) + Repeat(Get(f.url), loads);
    NoKeysBeforeTyping(f.url, LanguageSwitched(env.language, true), loads);
    assert e.log == pre + TypedLog(env.passwordField, f.password);
    assert e.log[k] == TypedLog(env.passwordField, f.password)[k - |pre|];
  }

  /** After finding the box and starting the browser, `login` issues the
      reload and then the calls of the rest, and ends with the fields the rest
      leaves. */
  lemma LoginIsReloadThenAuth(f: BoxFields, given: Option<string>, env: LoginEnv, forceReload: bool)
    requires ScanUrl(env.probe, DefaultScanRounds).Some? && !env.setupFails
    ensures var u := ScanUrl(env.probe, DefaultScanRounds).value;
            var a := AuthSpec(f.(url := u, password := KeptPassword(f.password, given)), env, forceReload);
            LoginSpec(f, given, env, forceReload) == a.(log := ReloadCalls(u, env.ts, true, true) + a.log)
            && a.fields.password == KeptPassword(f.password, given)
  {
  }

  /** The only text `login` ever types is the password it keeps, into the
      password field, and only when one is kept. */
  lemma TypedPasswordIsKept(f: BoxFields, given: Option<string>, env: LoginEnv, forceReload: bool, i: nat)
    requires var run := LoginSpec(f, given, env, forceReload); i < |run.log| && run.log[i].SendKeys?
    ensures var run := LoginSpec(f, given, env, forceReload);
            run.fields.password.Some? && run.log[i] == SendKeys(UiPass, run.fields.password.value)
  {
    var run := LoginSpec(f, given, env, forceReload);
    CallsOnlyWithBox(f, given, env, forceReload);
    LoginIsReloadThenAuth(f, given, env, forceReload);
    var u := ScanUrl(env.probe, DefaultScanRounds).value;
    var f1 := f.(url := u, password := KeptPassword(f.password, given));
    var a := AuthSpec(f1, env, forceReload);
    var reload := ReloadCalls(u, env.ts, true, true);
    assert run.log == reload + a.log && run.fields.password == f1.password;
    ReloadTypesNothing(u, env.ts);
    KeysAfterPrefix(reload, a.log, i);
    AuthTypesStoredPassword(f1, env, forceReload, i - |reload|);
  }

  /** `login` drives the browser only once the scan found the box and the
      browser could be started. */
  lemma CallsOnlyWithBox(f: BoxFields, given: Option<string>, env: LoginEnv, forceReload: bool)
    ensures LoginSpec(f, given, env, forceReload).log != [] ==> ScanUrl(env.probe, DefaultScanRounds).Some? && !env.setupFails
  {
  }

  /** The reload of `login` deletes cookies and loads a page: it types
      nothing. */
  lemma ReloadTypesNothing(url: string, ts: nat)
    ensures forall j :: 0 <= j < |ReloadCalls(url, ts, true, true)| ==> !ReloadCalls(url, ts, true, true)[j].SendKeys?
  {
    var r := ReloadCalls(url, ts, true, true);
    assert r[0] == DeleteCookies && r[1].Get?;
  }

  /** Keys typed after calls that type none are typed by the later calls. */
  lemma KeysAfterPrefix(pre: seq<DriverCall>, rest: seq<DriverCall>, i: nat)
    requires forall j :: 0 <= j < |pre| ==> !pre[j].SendKeys?
    requires i < |pre + rest| && (pre + rest)[i].SendKeys?
    ensures |pre| <= i && (pre + rest)[i] == rest[i - |pre|]
  {
  }

  // ----- the dialog sweep -----

  /** The sweep looks at no more than fifteen rounds: two runs that agree on
      rounds `from` to fourteen end the same way. */
  lemma {:induction false} SweepLooksAtFifteenRounds(a: nat -> DialogRound, b: nat -> DialogRound, from: nat := 0)
    requires forall k: nat :: from <= k < MaxDialogAttempts ==> a(k) == b(k)
    ensures SweepSucceeds(a, from) == SweepSucceeds(b, from)
    decreases MaxDialogAttempts - from
  {
    if from < MaxDialogAttempts {
      assert a(from) == b(from);
      SweepLooksAtFifteenRounds(a, b, from + 1);
    }
  }

  /** A round with the menu ready ends the sweep with success; a round back
      on the login form with the menu not ready ends it with failure; a
      round that ends nothing passes the decision on. */
  lemma SweepRoundDecides(rounds: nat -> DialogRound, k: nat)
    requires k < MaxDialogAttempts
    ensures Ready(rounds(k).view, true) ==> SweepSucceeds(rounds, k)
    ensures !Ready(rounds(k).view, true) && rounds(k).loginFormBack ==> !SweepSucceeds(rounds, k)
    ensures !EndsSweep(rounds(k)) ==> SweepSucceeds(rounds, k) == SweepSucceeds(rounds, k + 1)
  {
  }

  // ----- the guard -----

  /** `require_login` lets the wrapped method run only when the session was
      ready or the re-login with the stored password returned True; it
      refuses exactly when that re-login returned False. */
  lemma GuardProceedsOnlyWhenLoggedIn(f: BoxFields, live: bool, view: MenuView, relogin: LoginEnv)
    ensures GuardSpec(f, live, view, relogin).guard == Proceed <==>
              Ready(view, live) || LoginSpec(f.(isLoggedIn := false), f.password, relogin, false).outcome == Returned(true)
    ensures GuardSpec(f, live, view, relogin).guard == Refused <==>
              !Ready(view, live) && LoginSpec(f.(isLoggedIn := false), f.password, relogin, false).outcome == Returned(false)
    ensures GuardSpec(f, live, view, relogin).guard == Proceed ==> GuardSpec(f, live, view, relogin).fields.isLoggedIn
  {
    if !Ready(view, live) {
      LoginTrueMeansLoggedIn(f.(isLoggedIn := false), f.password, relogin, false);
    }
  }

  /** A refusing guard returns False and the wrapped method does not run:
      the scan leaves the fields as the re-login left them, the version check
      and the model search do not run. */
  lemma RefusedGuardSkipsMethod(f: BoxFields, live: bool, view: MenuView, relogin: LoginEnv,
                                pages: nat -> WlanPage, maxVersuche: nat, ui: ExpertUi, mp: ModelPages)
    requires GuardSpec(f, live, view, relogin).guard == Refused
    ensures WlanSpec(f, live, view, relogin, pages, maxVersuche) == (Returned(false), GuardSpec(f, live, view, relogin).fields)
    ensures ExpertSpec(f, live, view, relogin, ui) == Returned(false)
    ensures BoxModelSpec(f, live, view, relogin, mp) == (TextReturned(None), GuardSpec(f, live, view, relogin).fields)
  {
  }

  // ----- the WLAN scan -----

  /** A table row of exactly four cells contributes nothing (reading its
      fifth cell raises). */
  lemma FourCellRowDropped(rows: seq<TableRow>, row: TableRow)
    requires |row.cells| == 4
    ensures TableEntries(rows + [row]) == TableEntries(rows)
  {
    var all := rows + [row];
    assert all[..|all| - 1] == rows;
    assert TableRowEntries(row) == [];
  }

  /** A table row with a title and five or more cells contributes exactly
      its entry, with the channel from the fifth cell. */
  lemma FullRowAppended(rows: seq<TableRow>, row: TableRow)
    requires |row.cells| >= 5 && row.title.Some?
    ensures TableEntries(rows + [row]) == TableEntries(rows) + [RowEntry(row)]
    ensures RowEntry(row).channel == Strip(row.cells[4])
  {
    var all := rows + [row];
    assert all[..|all| - 1] == rows;
  }

  /** After the guard let it run, `check_wlan_antennas` holds exactly the
      networks of the first attempt that found some, and sets
      `is_wifi_checked`; when no attempt finds networks the results are empty
      and the flag is as the guard left it. */
  lemma ScanResultsAreOneAttempt(f: BoxFields, live: bool, view: MenuView, relogin: LoginEnv,
                                 pages: nat -> WlanPage, maxVersuche: nat)
    requires GuardSpec(f, live, view, relogin).guard == Proceed
    ensures WlanHit(pages, maxVersuche).Some? ==>
              WlanSpec(f, live, view, relogin, pages, maxVersuche).0 == Returned(true)
              && WlanSpec(f, live, view, relogin, pages, maxVersuche).1.wlanScanResults
                 == PageEntries(pages(WlanHit(pages, maxVersuche).value))
              && WlanSpec(f, live, view, relogin, pages, maxVersuche).1.isWifiChecked
    ensures WlanHit(pages, maxVersuche).None? ==>
              WlanSpec(f, live, view, relogin, pages, maxVersuche).0 == Returned(false)
              && WlanSpec(f, live, view, relogin, pages, maxVersuche).1.wlanScanResults == []
              && WlanSpec(f, live, view, relogin, pages, maxVersuche).1.isWifiChecked
                 == GuardSpec(f, live, view, relogin).fields.isWifiChecked
  {
  }

  // ----- the expert view, the version and the model -----

  /** From FRITZ!OS 7.15 on (and for a version that cannot be read) the
      expert-view check returns True without looking at the UI. */
  lemma ExpertSkippedFrom715(f: BoxFields, live: bool, view: MenuView, relogin: LoginEnv, ui: ExpertUi)
    requires GuardSpec(f, live, view, relogin).guard == Proceed
    requires GuardSpec(f, live, view, relogin).fields.osVersion.Some?
    requires ParseVersion(GuardSpec(f, live, view, relogin).fields.osVersion.value).Some?
    requires !OlderThan715(ParseVersion(GuardSpec(f, live, view, relogin).fields.osVersion.value).value.0,
                           ParseVersion(GuardSpec(f, live, view, relogin).fields.osVersion.value).value.1)
    ensures ExpertSpec(f, live, view, relogin, ui) == Returned(true)
  {
  }

  /** `get_firmware_version` stores what it returns, never returns an empty
      version, and reports False whenever the menu is not ready. */
  lemma VersionIsStored(f: BoxFields, p: VersionPage)
    ensures ReadVersion(f, p).0.Some? ==>
              ReadVersion(f, p).0.value != [] && ReadVersion(f, p).1.osVersion == ReadVersion(f, p).0
    ensures ReadVersion(f, p).0.None? ==> ReadVersion(f, p).1.osVersion == f.osVersion
    ensures !Ready(p.menu, true) ==> ReadVersion(f, p).0.None? && !ReadVersion(f, p).1.isLoggedIn
  {
  }

  /** Behind the guard as well, `get_firmware_version` returns only a stored,
      non-empty version; when it returns False the version is the one from
      before the call, and a refused guard always gives False. */
  lemma VersionBehindGuard(f: BoxFields, live: bool, view: MenuView, relogin: LoginEnv, p: VersionPage)
    ensures var r := VersionSpec(f, live, view, relogin, p);
            (r.0 == TextReturned(None) ==> r.1.osVersion == f.osVersion) &&
            (r.0.TextReturned? && r.0.value.Some? ==> r.0.value.value != [] && r.1.osVersion == r.0.value) &&
            (GuardSpec(f, live, view, relogin).guard == Refused ==> r.0 == TextReturned(None))
  {
    VersionIsStored(GuardSpec(f, live, view, relogin).fields, p);
  }

  /** Once the guard let it run and the menu is ready, `get_box_model`
      always stores a model: the one it returns, or `"UNKNOWN"` when it
      returns False. */
  lemma ModelIsStored(f: BoxFields, live: bool, view: MenuView, relogin: LoginEnv, p: ModelPages)
    requires GuardSpec(f, live, view, relogin).guard == Proceed && Ready(p.menu, true)
    ensures BoxModelSpec(f, live, view, relogin, p).0.TextReturned?
    ensures BoxModelSpec(f, live, view, relogin, p).0.value.Some? ==>
              BoxModelSpec(f, live, view, relogin, p).1.boxModel == BoxModelSpec(f, live, view, relogin, p).0.value
    ensures BoxModelSpec(f, live, view, relogin, p).0.value.None? ==>
              BoxModelSpec(f, live, view, relogin, p).1.boxModel == Some("UNKNOWN")
  {
  }

  /** A model found on the current page is the one returned, whatever the
      overview would show. */
  lemma CurrentPageWins(f: BoxFields, live: bool, view: MenuView, relogin: LoginEnv, p: ModelPages)
    requires GuardSpec(f, live, view, relogin).guard == Proceed && Ready(p.menu, true)
    requires PageModel(p.current).Some?
    ensures BoxModelSpec(f, live, view, relogin, p).0 == TextReturned(PageModel(p.current))
  {
  }
}
