/** The session controller of `FritzBox` (fritzbox_api.py): finding the box,
    checking whether the main menu is usable, logging in through a bounded
    sweep over the dialogs a fresh or freshly reset box shows, the
    `require_login` guard in front of the box operations, the expert-view
    check and the WLAN scan.

    The pages are oracles. A `MenuView` says whether the password field is on
    the page and which of the four main-menu items is present, displayed and
    enabled; a `DialogRound` says what one round of the sweep sees; the dialog
    handlers (`dsl_setup_init`, `handle_registration_dialog`,
    `neue_firmware_dialog`, `checkbox_fehlerdaten_dialog`,
    `skip_configuration`) are given by whether each would report a handled
    dialog. Every query goes through the box's `Browser`; a browser without a
    driver finds nothing. */
module FritzboxApi {
  import opened Common
  import opened Text
  import opened Environment
  import opened BrowserUtils
  import opened FritzboxText

  // ----- what the pages show -----

  /** What `is_logged_in_and_menu_ready` sees: the password field, and for each
      of the four menu items (`wlan`, `sys`, `internet`, `home`, in this order)
      whether it appeared displayed and enabled within its wait. */
  datatype MenuView = MenuView(passwordField: bool, menu: nat -> bool)

  const MenuItems: nat := 4

  /** The result of `is_logged_in_and_menu_ready`: no password field and one of
      the menu items ready. A browser without a driver sees neither. */
  predicate Ready(v: MenuView, live: bool) {
    live && !v.passwordField && FirstHit(v.menu, MenuItems).Some?
  }

  /** The language screen: whether `uiLanguage-en` is present, and the click
      attempts on it and on `submitLangBtn`. */
  datatype LanguageView = LanguageView(shown: bool, english: nat -> ClickAttempt, submit: nat -> ClickAttempt)

  /** `_handle_language_selection` switches to English exactly when the screen
      is shown and both clicks succeed within their three attempts. */
  predicate LanguageSwitched(l: LanguageView, live: bool) {
    live && l.shown && FirstClick(l.english, 3).Some? && FirstClick(l.submit, 3).Some?
  }

  /** The generic positive buttons `_handle_any_dialog_button` tries, in order. */
  const PositiveButtons: seq<string> := [
    "//*[@id=\"uiApply\"]",
    "//button[@name=\"apply\"]",
    "//*[@id=\"uiForward\"]",
    "//button[contains(translate(text(), \"WEITER\", \"weiter\"), \"weiter\")]",
    "//a[contains(translate(text(), \"WEITER\", \"weiter\"), \"weiter\")]",
    "//button[contains(translate(text(), \"OK\", \"ok\"), \"ok\")]",
    "//a[contains(translate(text(), \"OK\", \"ok\"), \"ok\")]",
    "//button[contains(translate(text(), \"ÜBERNEHMEN\", \"übernehmen\"), \"übernehmen\")]",
    "//button[contains(translate(text(), \"FERTIGSTELLEN\", \"fertigstellen\"), \"fertigstellen\")]",
    "//*[@id=\"submit_button\"]",
    "//*[@id=\"Button1\"]"
  ]

  /** The button `_handle_any_dialog_button` clicks: the first in the list whose
      single click attempt (`buttons(k)` for button `k`) succeeds. */
  function FirstButton(buttons: nat -> ClickAttempt, live: bool): (r: Option<nat>)
    ensures r.Some? ==> live && r.value < |PositiveButtons| && Succeeds(buttons(r.value))
    ensures r.Some? ==> forall k: nat :: k < r.value ==> !Succeeds(buttons(k))
    ensures r.None? ==> !live || forall k: nat :: k < |PositiveButtons| ==> !Succeeds(buttons(k))
  {
    if !live then None
    else
      var hit := (k: nat) => Succeeds(buttons(k));
      assert forall k: nat :: hit(k) == Succeeds(buttons(k));
      FirstHitFirst(hit, |PositiveButtons|);
      FirstHit(hit, |PositiveButtons|)
  }

  /** The dialog handlers the sweep asks, in order. */
  const DialogHandlers: nat := 5

  /** The sweep's rounds. */
  const MaxDialogAttempts: nat := 15

  /** One round of the sweep: the menu check, the password field check that
      follows it, what each handler would report, and the single click attempt
      on each positive button. */
  datatype DialogRound = DialogRound(view: MenuView, loginFormBack: bool, handlers: nat -> bool, buttons: nat -> ClickAttempt)

  /** What a round that did not end the sweep did: a handler dealt with a dialog,
      or no handler did and the generic fallback ran (clicking the button it
      names, if any). */
  datatype RoundAction = Handled(handler: nat) | Fallback(clicked: Option<nat>)

  function RoundActionOf(r: DialogRound): (a: RoundAction)
    ensures a.Handled? ==> a.handler < DialogHandlers && r.handlers(a.handler)
    ensures a.Handled? ==> forall h: nat :: h < a.handler ==> !r.handlers(h)
    ensures a.Fallback? ==> (forall h: nat :: h < DialogHandlers ==> !r.handlers(h)) && a.clicked == FirstButton(r.buttons, true)
  {
    match FirstHit(r.handlers, DialogHandlers)
    case Some(h) => Handled(h)
    case None => Fallback(FirstButton(r.buttons, true))
  }

  /** A round ends the sweep when the menu is ready or the login form is back. */
  predicate EndsSweep(r: DialogRound) {
    Ready(r.view, true) || r.loginFormBack
  }

  /** The round that ends the sweep, if any of rounds `from` to fourteen does. */
  function SweepStop(rounds: nat -> DialogRound, from: nat := 0): (r: Option<nat>)
    decreases MaxDialogAttempts - from
    ensures r.Some? ==> from <= r.value < MaxDialogAttempts && EndsSweep(rounds(r.value))
  {
    if from >= MaxDialogAttempts then None
    else if EndsSweep(rounds(from)) then Some(from)
    else SweepStop(rounds, from + 1)
  }

  /** The result of the sweep from round `from` on: the first round that ends
      it decides, True when its menu is ready; no such round gives False. */
  predicate SweepSucceeds(rounds: nat -> DialogRound, from: nat := 0)
    decreases MaxDialogAttempts - from
  {
    if from >= MaxDialogAttempts then false
    else if EndsSweep(rounds(from)) then Ready(rounds(from).view, true)
    else SweepSucceeds(rounds, from + 1)
  }

  /** `n` copies of one driver call. */
  function Repeat(c: DriverCall, n: nat): (r: seq<DriverCall>)
    ensures |r| == n && forall i :: 0 <= i < n ==> r[i] == c
  {
    if n == 0 then [] else Repeat(c, n - 1) + [c]
  }

  /** The wait for `uiPass` that `login` repeats, loading the page before each
      try, until the field appears: the try at which it appears. */
  function PasswordFieldFound(waits: seq<bool>): (r: Option<nat>)
    ensures r.Some? ==> r.value < |waits| && waits[r.value]
    ensures r.Some? ==> forall i :: 0 <= i < r.value ==> !waits[i]
    ensures r.None? ==> forall i :: 0 <= i < |waits| ==> !waits[i]
  {
    var hit := (i: nat) => i < |waits| && waits[i];
    assert forall i: nat :: hit(i) == (i < |waits| && waits[i]);
    FirstHitFirst(hit, |waits|);
    FirstHit(hit, |waits|)
  }

  /** The fields of a `FritzBox` other than its browser. */
  datatype BoxFields = BoxFields(
    url: string, osVersion: Option<string>, isReset: bool, language: Option<string>,
    isLoggedIn: bool, password: Option<string>, boxModel: Option<string>,
    isWifiChecked: bool, wlanScanResults: seq<WlanEntry>)

  /** A network in `wlan_scan_results`: name, frequency band, channel, MAC
      address and the signal title, each stripped. */
  datatype WlanEntry = WlanEntry(name: string, frequency: string, channel: string, mac: string, signal: string)

  /** How a box operation ended: it returned a truth value, or it kept waiting
      for the password field longer than the model follows it (the source
      loops without bound). */
  datatype Outcome = Returned(ok: bool) | Hangs

  /** The password `login` keeps: the argument when it is neither None nor
      empty, otherwise the one stored before. */
  function KeptPassword(stored: Option<string>, given: Option<string>): (r: Option<string>)
    ensures given.Some? && given.value != [] ==> r == given
    ensures given.None? || given.value == [] ==> r == stored
  {
    if given.Some? && given.value != [] then given else stored
  }

  /** Everything `login` observes. */
  datatype LoginEnv = LoginEnv(
    probe: Probe,                      // the reachability scan
    setupFails: bool,                  // starting a new WebDriver raises
    ts: nat,                           // the time `reload` appends
    initial: MenuView,                 // the check before any credential
    language: LanguageView,            // the language screen
    passwordWaits: seq<bool>,          // the waits for `uiPass`, one per page load
    passwordField: bool,               // `_check_if_login_required` before typing
    rounds: nat -> DialogRound)        // the dialog sweep

  /** The password field's XPath. */
  const UiPass: string := "//*[@id=\"uiPass\"]"

  /** What a call of `login` ends with: its outcome, the fields afterwards and
      the calls issued to the browser it started. */
  datatype LoginRun = LoginRun(outcome: Outcome, fields: BoxFields, log: seq<DriverCall>)

  /** How far `login` gets with the credentials: whether the password field
      appeared, the fields afterwards and the calls issued. */
  datatype Entry = Entry(found: bool, log: seq<DriverCall>)

  /** The reload after switching the language, if it was switched. */
  function LanguageLog(url: string, switched: bool): (r: seq<DriverCall>)
    ensures |r| <= 1
  {
    if switched then [Get(url)] else []
  }

  /** Typing the stored password, when the login form asks for it and a
      password is known. */
  function TypedLog(passwordField: bool, password: Option<string>): (r: seq<DriverCall>)
    ensures r != [] <==> passwordField && password.Some?
  {
    if passwordField && password.Some? then [SendKeys(UiPass, password.value)] else []
  }

  /** The language screen, the wait for the password field and typing the
      stored password, for a box at `url` with the stored `password`. */
  function EntrySpec(url: string, password: Option<string>, env: LoginEnv): (r: Entry)
  {
    var w := PasswordFieldFound(env.passwordWaits);
    var loads := if w.Some? then w.value + 1 else |env.passwordWaits|;
    var log := LanguageLog(url, LanguageSwitched(env.language, true)) + Repeat(Get(url), loads);
    if w.None? then Entry(false, log)
    else Entry(true, log + TypedLog(env.passwordField, password))
  }

  /** The part of `login` after the start page was reloaded in the new
      browser, from fields `f`: the early return when the menu is already
      ready, the credentials, and the dialog sweep; with the calls issued. */
  function AuthSpec(f: BoxFields, env: LoginEnv, forceReload: bool): (r: LoginRun)
  {
    if !forceReload && Ready(env.initial, true) then LoginRun(Returned(true), f.(isLoggedIn := true), [])
    else
      var f3 := Entered(f, env, forceReload);
      var e := EntrySpec(f.url, f.password, env);
      if !e.found then LoginRun(Hangs, f3, e.log)
      else
        var ok := SweepSucceeds(env.rounds);
        LoginRun(Returned(ok), f3.(isLoggedIn := ok), e.log)
  }

  /** The fields once the credentials were entered: the menu check that ran
      unless the reload was forced found no menu, and the language is English
      when it was switched. */
  function Entered(f: BoxFields, env: LoginEnv, forceReload: bool): (r: BoxFields)
    ensures r.url == f.url && r.password == f.password && r.wlanScanResults == f.wlanScanResults
  {
    var f2 := if forceReload then f else f.(isLoggedIn := false);
    if LanguageSwitched(env.language, true) then f2.(language := Some("en")) else f2
  }

  /** `login(password, force_reload)` from fields `f`. */
  function LoginSpec(f: BoxFields, given: Option<string>, env: LoginEnv, forceReload: bool): (r: LoginRun)
  {
    match ScanUrl(env.probe, DefaultScanRounds)
    case None => LoginRun(Returned(false), f, [])
    case Some(u) =>
      var f1 := f.(url := u, password := KeptPassword(f.password, given));
      if env.setupFails then LoginRun(Returned(false), f1, [])
      else
        var a := AuthSpec(f1, env, forceReload);
        a.(log := ReloadCalls(u, env.ts, true, true) + a.log)
  }

  /** What `require_login` decides: run the wrapped method, refuse it (the
      wrapper returns False), or hang in the re-login. */
  datatype Guard = Proceed | Refused | GuardHangs

  datatype GuardRun = GuardRun(guard: Guard, fields: BoxFields, relogged: bool)

  /** `require_login` from fields `f` with a browser that is `live` or not: the
      session check; when it fails, a re-login with the stored password. */
  function GuardSpec(f: BoxFields, live: bool, view: MenuView, relogin: LoginEnv): (r: GuardRun)
  {
    if Ready(view, live) then GuardRun(Proceed, f.(isLoggedIn := true), false)
    else
      var f1 := f.(isLoggedIn := false);
      var run := LoginSpec(f1, f1.password, relogin, false);
      var g := match run.outcome
        case Returned(ok) => if ok then Proceed else Refused
        case Hangs => GuardHangs;
      GuardRun(g, run.fields, true)
  }

  /** The expert-view check in the UI (versions before 7.15): clicking `mUp`
      once, or else `sys` and then `mUp`; then either the `userUp` tab is
      already there, or the toggle through the user menu works. */
  datatype ExpertUi = ExpertUi(
    updateDirect: nat -> ClickAttempt, system: nat -> ClickAttempt, update: nat -> ClickAttempt,
    fileTabPresent: bool, toggleWorks: bool)

  predicate ExpertUiSucceeds(ui: ExpertUi) {
    (FirstClick(ui.updateDirect, 1).Some? || (FirstClick(ui.system, 3).Some? && FirstClick(ui.update, 3).Some?))
    && (ui.fileTabPresent || ui.toggleWorks)
  }

  // ----- the WLAN scan -----

  /** A row of the modern list: its five texts, or `None` when reading the row
      raised. */
  datatype RawEntry = RawEntry(name: string, frequency: string, channel: string, mac: string, signal: string)

  /** A row of the old table: the `title` of its first cell (`None` when the
      attribute is missing) and the texts of its cells. */
  datatype TableRow = TableRow(title: Option<string>, cells: seq<string>)

  /** One attempt of the scan: whether opening WLAN and then the channel page
      worked, then the rows of the modern list and of the old table. */
  datatype WlanPage = WlanPage(reached: bool, modern: seq<Option<RawEntry>>, table: seq<TableRow>)

  function Stripped(e: RawEntry): WlanEntry {
    WlanEntry(Strip(e.name), Strip(e.frequency), Strip(e.channel), Strip(e.mac), Strip(e.signal))
  }

  /** What one row of the modern list yields: its stripped texts, or nothing
      when reading it raised. */
  function ModernEntry(row: Option<RawEntry>): (r: seq<WlanEntry>)
    ensures |r| == (if row.Some? then 1 else 0)
  {
    match row
    case None => []
    case Some(e) => [Stripped(e)]
  }

  /** The entries a modern list yields: every row that could be read. */
  function ModernEntries(rows: seq<Option<RawEntry>>): (r: seq<WlanEntry>)
    ensures |r| <= |rows|
  {
    if rows == [] then [] else ModernEntries(rows[..|rows| - 1]) + ModernEntry(rows[|rows| - 1])
  }

  /** What one table row yields. Rows with fewer than four cells are skipped;
      the channel is read from the fifth cell, so a row of exactly four cells
      raises `IndexError` and is dropped as well; so is a row without a title. */
  function TableEntry(row: TableRow): (r: Option<WlanEntry>)
    ensures r.Some? <==> |row.cells| >= 5 && row.title.Some?
  {
    if |row.cells| < 4 then None
    else if row.title.None? then None
    else if |row.cells| == 4 then None
    else Some(RowEntry(row))
  }

  /** The entry of a table row with a title and at least five cells: name,
      band, the channel from the fifth cell, the MAC address from the fourth,
      and the title as signal. */
  function RowEntry(row: TableRow): (r: WlanEntry)
    requires |row.cells| > 4 && row.title.Some?
    ensures r.channel == Strip(row.cells[4]) && r.mac == Strip(row.cells[3]) && r.signal == Strip(row.title.value)
  {
    WlanEntry(Strip(row.cells[1]), Strip(row.cells[2]), Strip(row.cells[4]), Strip(row.cells[3]), Strip(row.title.value))
  }

  function TableRowEntries(row: TableRow): (r: seq<WlanEntry>)
    ensures |r| == (if TableEntry(row).Some? then 1 else 0)
  {
    match TableEntry(row)
    case None => []
    case Some(e) => [e]
  }

  function TableEntries(rows: seq<TableRow>): (r: seq<WlanEntry>)
    ensures |r| <= |rows|
  {
    if rows == [] then [] else TableEntries(rows[..|rows| - 1]) + TableRowEntries(rows[|rows| - 1])
  }

  /** Reading the modern list one row further appends that row's entry. */
  lemma ModernEntriesStep(rows: seq<Option<RawEntry>>, i: nat)
    requires i < |rows|
    ensures ModernEntries(rows[..i + 1]) == ModernEntries(rows[..i]) + ModernEntry(rows[i])
  {
    assert rows[..i + 1][..i] == rows[..i];
  }

  /** Reading the old table one row further appends that row's entry. */
  lemma TableEntriesStep(rows: seq<TableRow>, i: nat)
    requires i < |rows|
    ensures TableEntries(rows[..i + 1]) == TableEntries(rows[..i]) + TableRowEntries(rows[i])
  {
    assert rows[..i + 1][..i] == rows[..i];
  }

  /** An attempt finds networks when the pages opened and either list has rows. */
  predicate FindsNetworks(p: WlanPage) {
    p.reached && (|p.modern| > 0 || |p.table| > 0)
  }

  /** The entries of an attempt that finds networks: the modern list wins. */
  function PageEntries(p: WlanPage): seq<WlanEntry> {
    if |p.modern| > 0 then ModernEntries(p.modern) else TableEntries(p.table)
  }

  /** The attempt that finds networks, if one of the first `maxVersuche` does. */
  function WlanHit(pages: nat -> WlanPage, maxVersuche: nat): (r: Option<nat>)
    ensures r.Some? ==> r.value < maxVersuche && FindsNetworks(pages(r.value))
    ensures r.Some? ==> forall i: nat :: i < r.value ==> !FindsNetworks(pages(i))
    ensures r.None? ==> forall i: nat :: i < maxVersuche ==> !FindsNetworks(pages(i))
  {
    var hit := (i: nat) => FindsNetworks(pages(i));
    assert forall i: nat :: hit(i) == FindsNetworks(pages(i));
    FirstHitFirst(hit, maxVersuche);
    FirstHit(hit, maxVersuche)
  }

  /** The attempts of the scan from fields `f`: the first attempt that finds
      networks appends its entries and sets `is_wifi_checked`; none leaves
      the fields as they are. */
  function ScanSpec(f: BoxFields, pages: nat -> WlanPage, maxVersuche: nat): (r: (bool, BoxFields))
  {
    match WlanHit(pages, maxVersuche)
    case Some(i) => (true, f.(wlanScanResults := f.wlanScanResults + PageEntries(pages(i)), isWifiChecked := true))
    case None => (false, f)
  }

  /** `check_wlan_antennas` (behind `require_login`) from fields `f`: the
      results are emptied before the attempts. */
  function WlanSpec(f: BoxFields, live: bool, view: MenuView, relogin: LoginEnv, pages: nat -> WlanPage, maxVersuche: nat): (r: (Outcome, BoxFields))
  {
    var run := GuardSpec(f, live, view, relogin);
    match run.guard
    case GuardHangs => (Hangs, run.fields)
    case Refused => (Returned(false), run.fields)
    case Proceed =>
      var scan := ScanSpec(run.fields.(wlanScanResults := []), pages, maxVersuche);
      (Returned(scan.0), scan.1)
  }

  /** `activate_expert_mode_if_needed` (behind `require_login`) from fields `f`. */
  function ExpertSpec(f: BoxFields, live: bool, view: MenuView, relogin: LoginEnv, ui: ExpertUi): (r: Outcome)
  {
    var run := GuardSpec(f, live, view, relogin);
    match run.guard
    case GuardHangs => Hangs
    case Refused => Returned(false)
    case Proceed =>
      match ExpertDecision(run.fields.osVersion)
      case NoCheckNeeded => Returned(true)
      case CheckInUi => Returned(ExpertUiSucceeds(ui))
  }

  // ----- reading the version and the model -----

  /** What `get_firmware_version` sees: the menu check, the clicks on the home
      entry, on `sys` and on `mUp`, and the text of the primary version
      element and of the fallback element (`None` when waiting for it fails). */
  datatype VersionPage = VersionPage(
    menu: MenuView, home: nat -> ClickAttempt, system: nat -> ClickAttempt, update: nat -> ClickAttempt,
    primary: Option<string>, fallback: Option<string>)

  /** The version text read from the update page: the stripped primary text;
      without it, the first `MM.mm` of the stripped fallback text, or the empty
      text when there is none; `None` when the fallback wait raised too. */
  function VersionText(p: VersionPage): (r: Option<string>)
    ensures p.primary.Some? ==> r == Some(Strip(p.primary.value))
    ensures r.None? <==> p.primary.None? && p.fallback.None?
  {
    if p.primary.Some? then Some(Strip(p.primary.value))
    else if p.fallback.None? then None
    else
      match FallbackVersion(Strip(p.fallback.value))
      case Some(v) => Some(v)
      case None => Some("")
  }

  /** The body of `get_firmware_version` from fields `f`, once the guard let
      it run: the version found (`None` for False) and the fields afterwards. */
  function ReadVersion(f: BoxFields, p: VersionPage): (r: (Option<string>, BoxFields))
  {
    if !Ready(p.menu, true) then (None, f.(isLoggedIn := false))
    else
      var f1 := f.(isLoggedIn := true);
      if FirstClick(p.system, 3).None? || FirstClick(p.update, 3).None? then (None, f1)
      else match VersionText(p)
        case None => (None, f1)
        case Some(t) => if t == [] then (None, f1) else (Some(t), f1.(osVersion := Some(t)))
  }

  /** `get_firmware_version` (behind `require_login`) from fields `f`. */
  function VersionSpec(f: BoxFields, live: bool, view: MenuView, relogin: LoginEnv, p: VersionPage): (r: (TextOutcome, BoxFields))
  {
    var run := GuardSpec(f, live, view, relogin);
    match run.guard
    case GuardHangs => (TextHangs, run.fields)
    case Refused => (TextReturned(None), run.fields)
    case Proceed => (TextReturned(ReadVersion(run.fields, p).0), ReadVersion(run.fields, p).1)
  }

  /** The element texts `get_box_model` reads on one page, one per XPath:
      `None` when waiting for the element fails, else its `textContent`. */
  type ModelElements = nat -> Option<Option<string>>

  /** The three XPaths `get_box_model` looks at on each page. */
  const ModelXPaths: nat := 3

  /** The model one element yields. */
  function ModelOf(el: Option<Option<string>>): (r: Option<string>)
    ensures el.None? ==> r.None?
    ensures el.Some? ==> r == ExtractModelNumber(el.value)
  {
    if el.None? then None else ExtractModelNumber(el.value)
  }

  /** The first of the three elements that yields a model. */
  function FirstModelAt(els: ModelElements): (r: Option<nat>)
    ensures r.Some? ==> r.value < ModelXPaths && ModelOf(els(r.value)).Some?
  {
    FirstHit((k: nat) => ModelOf(els(k)).Some?, ModelXPaths)
  }

  function PageModel(els: ModelElements): (r: Option<string>)
    ensures r.Some? <==> FirstModelAt(els).Some?
  {
    match FirstModelAt(els)
    case None => None
    case Some(k) => ModelOf(els(k))
  }

  /** What `get_box_model` sees after the login check: the menu check, the
      elements on the current page, the click on the overview and the elements
      on the overview. */
  datatype ModelPages = ModelPages(menu: MenuView, current: ModelElements, overview: nat -> ClickAttempt, overviewPage: ModelElements)

  /** A box operation that answers with a text or False, behind
      `require_login` (which can hang in the re-login). */
  datatype TextOutcome = TextReturned(value: Option<string>) | TextHangs

  /** `get_box_model` from fields `f`: the model from the current page, else
      from the overview if the overview could be opened; none at all stores
      `"UNKNOWN"` and returns False. */
  function BoxModelSpec(f: BoxFields, live: bool, view: MenuView, relogin: LoginEnv, p: ModelPages): (r: (TextOutcome, BoxFields))
  {
    var run := GuardSpec(f, live, view, relogin);
    match run.guard
    case GuardHangs => (TextHangs, run.fields)
    case Refused => (TextReturned(None), run.fields)
    case Proceed =>
      if !Ready(p.menu, true) then (TextReturned(None), run.fields.(isLoggedIn := false))
      else
        var f1 := run.fields.(isLoggedIn := true);
        var found := if PageModel(p.current).Some? then PageModel(p.current)
                     else if FirstClick(p.overview, 3).Some? then PageModel(p.overviewPage)
                     else None;
        match found
        case Some(m) => (TextReturned(Some(m)), f1.(boxModel := Some(m)))
        case None => (TextReturned(None), f1.(boxModel := Some("UNKNOWN")))
  }

  // ----- lemmas about the sweep and the loop helpers -----

  /** A round that does not end the sweep passes it on to the next. */
  lemma SweepSkips(rounds: nat -> DialogRound, k: nat)
    requires k < MaxDialogAttempts && !EndsSweep(rounds(k))
    ensures SweepSucceeds(rounds, k) == SweepSucceeds(rounds, k + 1)
  {
  }

  /** The sweep succeeds exactly when it stops at a round whose menu is ready. */
  lemma {:induction false} SweepSucceedsAtStop(rounds: nat -> DialogRound, from: nat := 0)
    ensures SweepSucceeds(rounds, from) <==>
              SweepStop(rounds, from).Some? && Ready(rounds(SweepStop(rounds, from).value).view, true)
    decreases MaxDialogAttempts - from
  {
    if from < MaxDialogAttempts && !EndsSweep(rounds(from)) {
      SweepSucceedsAtStop(rounds, from + 1);
    }
  }

  /** The sweep stops at the first round that ends it, and only there: no
      round before the one reported ends it, and when none is reported no
      round of the fifteen does. */
  lemma {:induction false} SweepStopIsFirst(rounds: nat -> DialogRound, from: nat := 0)
    ensures SweepStop(rounds, from).Some? ==>
              forall i: nat :: from <= i < SweepStop(rounds, from).value ==> !EndsSweep(rounds(i))
    ensures SweepStop(rounds, from).None? ==>
              forall i: nat :: from <= i < MaxDialogAttempts ==> !EndsSweep(rounds(i))
    decreases MaxDialogAttempts - from
  {
    if from < MaxDialogAttempts && !EndsSweep(rounds(from)) {
      SweepStopIsFirst(rounds, from + 1);
    }
  }

  lemma PasswordFieldAt(waits: seq<bool>, k: nat)
    requires k < |waits| && waits[k]
    requires forall i :: 0 <= i < k ==> !waits[i]
    ensures PasswordFieldFound(waits) == Some(k)
  {
    FirstHitIs((i: nat) => i < |waits| && waits[i], |waits|, k);
  }

  lemma PasswordFieldNever(waits: seq<bool>)
    requires forall i :: 0 <= i < |waits| ==> !waits[i]
    ensures PasswordFieldFound(waits) == None
  {
    FirstHitNone((i: nat) => i < |waits| && waits[i], |waits|);
  }

  class FritzBox {
    var browser: Browser
    var url: string
    var osVersion: Option<string>
    var isReset: bool
    var language: Option<string>
    var isLoggedIn: bool
    var password: Option<string>
    var boxModel: Option<string>
    var isWifiChecked: bool
    var wlanScanResults: seq<WlanEntry>

    function Fields(): BoxFields
      reads this
    {
      BoxFields(url, osVersion, isReset, language, isLoggedIn, password, boxModel, isWifiChecked, wlanScanResults)
    }

    /** `FritzBox(browser)`: the default address and an empty session. */
    constructor(b: Browser)
      ensures browser == b
      ensures Fields() == BoxFields(DefaultUrl, None, false, None, false, None, None, false, [])
    {
      browser := b;
      url := DefaultUrl;
      osVersion := None;
      isReset := false;
      language := None;
      isLoggedIn := false;
      password := None;
      boxModel := None;
      isWifiChecked := false;
      wlanScanResults := [];
    }

    /** `warte_auf_erreichbarkeit`: `versuche` rounds over the four candidate
        addresses in order; the first that answers is adopted and the scan
        stops; without an answer the address stays as it was. */
    method WarteAufErreichbarkeit(probe: Probe, versuche: nat := DefaultScanRounds) returns (ok: bool)
      modifies this`url
      ensures ok <==> ScanUrl(probe, versuche).Some?
      ensures url == if ok then ScanUrl(probe, versuche).value else old(url)
    {
      var round := 0;
      while round < versuche
        invariant round <= versuche
        invariant url == old(url)
        invariant forall u: nat :: u < 4 * round ==> !Answers(probe, u)
      {
        var k := 0;
        while k < 4
          invariant k <= 4
          invariant url == old(url)
          invariant forall u: nat :: u < 4 * round + k ==> !Answers(probe, u)
        {
          RoundAndIndex(round, k);
          if probe(round, k) {
            ScanHitAt(probe, versuche, round, k);
            url := CandidateUrls[k];
            return true;
          }
          k := k + 1;
        }
        round := round + 1;
      }
      return false;
    }

    /** `is_logged_in_and_menu_ready`: False when the password field is there
        (the menu is then not looked at); otherwise True when one of the four
        menu items is ready, tried in order. `is_logged_in` is set to the
        result. */
    method IsLoggedInAndMenuReady(view: MenuView) returns (ready: bool)
      modifies this`isLoggedIn
      ensures ready == Ready(view, browser.live)
      ensures isLoggedIn == ready
    {
      if !browser.live || view.passwordField {
        isLoggedIn := false;
        return false;
      }
      var k := 0;
      while k < MenuItems
        invariant k <= MenuItems
        invariant forall j :: 0 <= j < k ==> !view.menu(j)
      {
        if view.menu(k) {
          FirstHitIs(view.menu, MenuItems, k);
          isLoggedIn := true;
          return true;
        }
        k := k + 1;
      }
      FirstHitNone(view.menu, MenuItems);
      isLoggedIn := false;
      return false;
    }

    /** `_handle_language_selection`: switches the UI to English when the
        language screen is shown and both buttons can be clicked. */
    method HandleLanguageSelection(l: LanguageView) returns (ok: bool)
      modifies this`language
      ensures ok == LanguageSwitched(l, browser.live)
      ensures language == if ok then Some("en") else old(language)
    {
      ok := false;
      if browser.live && l.shown {
        var english, _ := browser.Klicken("//*[@id=\"uiLanguage-en\"]", l.english);
        if english {
          var submit, _ := browser.Klicken("//*[@id=\"submitLangBtn\"]", l.submit);
          if submit {
            language := Some("en");
            ok := true;
          }
        }
      }
    }

    /** `_handle_any_dialog_button`: clicks the first positive button that can be
        clicked in one attempt, and no other; False when none could. */
    method HandleAnyDialogButton(buttons: nat -> ClickAttempt) returns (ok: bool, clicked: Option<nat>)
      ensures clicked == FirstButton(buttons, browser.live)
      ensures ok <==> clicked.Some?
    {
      var k := 0;
      while k < |PositiveButtons|
        invariant k <= |PositiveButtons|
        invariant browser.live ==> forall j: nat :: j < k ==> !Succeeds(buttons(j))
      {
        var once := (i: nat) => buttons(k);
        var hit, _ := browser.Klicken(PositiveButtons[k], once, 1);
        if hit {
          assert Succeeds(buttons(k)) by {
            assert FirstClick(once, 1).value == 0;
          }
          FirstHitIs((j: nat) => Succeeds(buttons(j)), |PositiveButtons|, k);
          return true, Some(k);
        }
        if browser.live {
          assert !Succeeds(buttons(k)) by {
            assert once(0) == buttons(k);
          }
        }
        k := k + 1;
      }
      if browser.live {
        FirstHitNone((j: nat) => Succeeds(buttons(j)), |PositiveButtons|);
      }
      return false, None;
    }

    /** The part of a sweep round after the menu and login-form checks: the
        five dialog handlers in order until one reports a dialog, or else the
        generic button fallback. */
    method DialogStep(r: DialogRound) returns (action: RoundAction)
      requires browser.live
      ensures action == RoundActionOf(r)
    {
      var h := 0;
      while h < DialogHandlers && !r.handlers(h)
        invariant h <= DialogHandlers
        invariant forall j: nat :: j < h ==> !r.handlers(j)
      {
        h := h + 1;
      }
      if h < DialogHandlers {
        FirstHitIs(r.handlers, DialogHandlers, h);
        action := Handled(h);
      } else {
        FirstHitNone(r.handlers, DialogHandlers);
        var _, clicked := HandleAnyDialogButton(r.buttons);
        action := Fallback(clicked);
      }
    }

    /** One round of the dialog sweep: the menu check (which sets
        `is_logged_in`), then the login-form check; when neither ends the
        sweep, the dialog step. */
    method SweepRound(r: DialogRound) returns (ends: bool, ready: bool)
      requires browser.live
      modifies this`isLoggedIn
      ensures ends == EndsSweep(r)
      ensures ready == Ready(r.view, true) && isLoggedIn == ready
    {
      ready := IsLoggedInAndMenuReady(r.view);
      if ready || r.loginFormBack {
        return true, ready;
      }
      var _ := DialogStep(r);
      ends := false;
    }

    /** The dialog sweep at the end of `login`: up to fifteen rounds; a round
        with the menu ready ends it with True, a round back on the login form
        ends it with False; otherwise the first handler that reports a dialog
        ends the round, and only when none does the generic button fallback
        runs. Fifteen rounds without an end give False. `is_logged_in` ends
        equal to the result. */
    method DialogSweep(rounds: nat -> DialogRound) returns (ok: bool)
      requires browser.live
      modifies this`isLoggedIn
      ensures ok == SweepSucceeds(rounds)
      ensures isLoggedIn == ok
    {
      var attempt := 0;
      while attempt < MaxDialogAttempts
        invariant attempt <= MaxDialogAttempts
        invariant SweepSucceeds(rounds, attempt) == SweepSucceeds(rounds)
      {
        var ends, ready := SweepRound(rounds(attempt));
        if ends {
          isLoggedIn := ready;
          return ready;
        }
        SweepSkips(rounds, attempt);
        attempt := attempt + 1;
      }
      isLoggedIn := false;
      return false;
    }

    /** The loop of `login` that loads the page and waits for `uiPass` until it
        appears: whether it appeared within the waits the model follows, and
        how many page loads that took. */
    method WaitForPasswordField(waits: seq<bool>) returns (found: bool, loads: nat)
      requires browser.live
      modifies browser
      ensures found <==> PasswordFieldFound(waits).Some?
      ensures loads == if found then PasswordFieldFound(waits).value + 1 else |waits|
      ensures browser.live && browser.log == old(browser.log) + Repeat(Get(url), loads)
    {
      var i := 0;
      while i < |waits|
        invariant i <= |waits|
        invariant browser.live && browser.log == old(browser.log) + Repeat(Get(url), i)
        invariant forall j :: 0 <= j < i ==> !waits[j]
      {
        var _ := browser.GetUrl(url, false);
        if waits[i] {
          PasswordFieldAt(waits, i);
          return true, i + 1;
        }
        i := i + 1;
      }
      PasswordFieldNever(waits);
      return false, |waits|;
    }

    /** `_handle_language_selection` and, when it switched the language, the
        reload of the start page that `login` follows it with. */
    method SwitchLanguage(l: LanguageView) returns (switched: bool)
      requires browser.live
      modifies this`language, browser
      ensures switched == LanguageSwitched(l, true)
      ensures language == if switched then Some("en") else old(language)
      ensures browser.live && browser.log == old(browser.log) + LanguageLog(url, switched)
    {
      switched := HandleLanguageSelection(l);
      if switched {
        var _ := browser.GetUrl(url, false);
      }
    }

    /** Types the stored password into `uiPass` when the login form asks for it. */
    method TypePassword(passwordField: bool)
      requires browser.live
      modifies browser
      ensures browser.live && browser.log == old(browser.log) + TypedLog(passwordField, password)
    {
      if passwordField {
        var _ := browser.Schreiben(UiPass, password, true);
      }
    }

    /** The language screen, the wait for `uiPass` and typing the stored
        password, in the freshly started browser. */
    method EnterPassword(env: LoginEnv) returns (found: bool)
      requires browser.live
      modifies this`language, browser
      ensures found == EntrySpec(url, password, env).found
      ensures language == if LanguageSwitched(env.language, true) then Some("en") else old(language)
      ensures browser.live && browser.log == old(browser.log) + EntrySpec(url, password, env).log
    {
      var switched := SwitchLanguage(env.language);
      ghost var afterLanguage := browser.log;
      var loads;
      found, loads := WaitForPasswordField(env.passwordWaits);
      assert browser.log == old(browser.log) + (LanguageLog(url, switched) + Repeat(Get(url), loads));
      if found {
        ghost var waited := browser.log;
        TypePassword(env.passwordField);
        assert browser.log == waited + TypedLog(env.passwordField, password);
      }
    }

    /** The part of `login` that runs in the freshly started browser once the
        start page was reloaded. */
    method Authenticate(env: LoginEnv, forceReload: bool) returns (outcome: Outcome)
      requires browser.live
      modifies this`isLoggedIn, this`language, browser
      ensures outcome == AuthSpec(old(Fields()), env, forceReload).outcome
      ensures Fields() == AuthSpec(old(Fields()), env, forceReload).fields
      ensures browser.live
      ensures browser.log == old(browser.log) + AuthSpec(old(Fields()), env, forceReload).log
    {
      if !forceReload {
        var ready := IsLoggedInAndMenuReady(env.initial);
        if ready {
          assert Fields() == old(Fields()).(isLoggedIn := true);
          return Returned(true);
        }
      }
      var found := EnterPassword(env);
      ghost var entered := Fields();
      assert entered == Entered(old(Fields()), env, forceReload);
      if !found {
        return Hangs;
      }
      var ok := DialogSweep(env.rounds);
      assert Fields() == entered.(isLoggedIn := ok);
      outcome := Returned(ok);
    }

    /** `login(password, force_reload)`: find the box (False if it does not
        answer); keep the password given unless it is empty; start a new
        browser, unconditionally (False if that fails); reload the start page;
        unless forced, return True at once when the menu is already ready;
        switch the language if asked; wait for the password field; type the
        stored password when the field is there; then the dialog sweep. */
    method Login(given: Option<string>, env: LoginEnv, forceReload: bool := false) returns (outcome: Outcome)
      modifies this`url, this`password, this`browser, this`isLoggedIn, this`language
      ensures outcome == LoginSpec(old(Fields()), given, env, forceReload).outcome
      ensures Fields() == LoginSpec(old(Fields()), given, env, forceReload).fields
      ensures ScanUrl(env.probe, DefaultScanRounds).None? || env.setupFails ==> browser == old(browser)
      ensures ScanUrl(env.probe, DefaultScanRounds).Some? && !env.setupFails ==>
                fresh(browser) && browser.live && browser.log == LoginSpec(old(Fields()), given, env, forceReload).log
    {
      var reachable := WarteAufErreichbarkeit(env.probe);
      if !reachable {
        assert Fields() == old(Fields());
        return Returned(false);
      }
      password := KeptPassword(password, given);
      ghost var connected := Fields();
      assert connected == old(Fields()).(url := url, password := password);
      if env.setupFails {
        return Returned(false);
      }
      outcome := StartSession(env, forceReload);
      assert LoginSpec(old(Fields()), given, env, forceReload).fields == AuthSpec(connected, env, forceReload).fields;
    }

    /** The part of `login` from starting the new browser on: the reload of
        the start page with a cache-busting parameter after clearing the
        cookies, then the rest of the login in that browser. */
    method StartSession(env: LoginEnv, forceReload: bool) returns (outcome: Outcome)
      modifies this`browser, this`isLoggedIn, this`language
      ensures outcome == AuthSpec(old(Fields()), env, forceReload).outcome
      ensures Fields() == AuthSpec(old(Fields()), env, forceReload).fields
      ensures fresh(browser) && browser.live
      ensures browser.log == ReloadCalls(url, env.ts, true, true) + AuthSpec(old(Fields()), env, forceReload).log
    {
      var b := new Browser();
      browser := b;
      var _ := b.Reload(url, env.ts, false);
      outcome := Authenticate(env, forceReload);
    }

    /** `require_login`: when the session is not ready, log in again with the
        stored password; the wrapped method runs only when the session was
        ready or the re-login returned True. */
    method RequireLogin(view: MenuView, relogin: LoginEnv) returns (g: Guard)
      modifies this
      ensures g == GuardSpec(old(Fields()), old(browser.live), view, relogin).guard
      ensures Fields() == GuardSpec(old(Fields()), old(browser.live), view, relogin).fields
      ensures g == Proceed ==> browser.live
      ensures !GuardSpec(old(Fields()), old(browser.live), view, relogin).relogged ==> browser == old(browser)
    {
      var ready := IsLoggedInAndMenuReady(view);
      if ready {
        return Proceed;
      }
      var outcome := Login(password, relogin);
      match outcome
      case Hangs => g := GuardHangs;
      case Returned(ok) => g := if ok then Proceed else Refused;
    }

    /** `activate_expert_mode_if_needed`: behind `require_login`; True without
        looking at the UI unless the version is older than 7.15; otherwise
        open the update page (`mUp` once, or `sys` and `mUp`) and make sure the
        firmware-file tab is usable, turning on the expert view if needed. */
    method ActivateExpertModeIfNeeded(view: MenuView, relogin: LoginEnv, ui: ExpertUi) returns (outcome: Outcome)
      modifies this
      ensures outcome == ExpertSpec(old(Fields()), old(browser.live), view, relogin, ui)
      ensures Fields() == GuardSpec(old(Fields()), old(browser.live), view, relogin).fields
    {
      var g := RequireLogin(view, relogin);
      if g == GuardHangs {
        return Hangs;
      }
      if g == Refused {
        return Returned(false);
      }
      if ExpertDecision(osVersion) == NoCheckNeeded {
        return Returned(true);
      }
      var direct, _ := browser.Klicken("//*[@id=\"mUp\"]", ui.updateDirect, 1);
      if !direct {
        var system, _ := browser.Klicken("//*[@id=\"sys\"]", ui.system);
        if !system {
          return Returned(false);
        }
        var update, _ := browser.Klicken("//*[@id=\"mUp\"]", ui.update);
        if !update {
          return Returned(false);
        }
      }
      outcome := Returned(ui.fileTabPresent || ui.toggleWorks);
    }

    /** The rows of the modern list, in order: each row that can be read is
        appended, stripped; a row whose reading raises is skipped. */
    method ReadModern(rows: seq<Option<RawEntry>>)
      modifies this`wlanScanResults
      ensures wlanScanResults == old(wlanScanResults) + ModernEntries(rows)
    {
      var i := 0;
      while i < |rows|
        invariant i <= |rows|
        invariant wlanScanResults == old(wlanScanResults) + ModernEntries(rows[..i])
      {
        ModernEntriesStep(rows, i);
        assert (old(wlanScanResults) + ModernEntries(rows[..i])) + ModernEntry(rows[i]) ==
               old(wlanScanResults) + (ModernEntries(rows[..i]) + ModernEntry(rows[i]));
        if rows[i].Some? {
          wlanScanResults := wlanScanResults + [Stripped(rows[i].value)];
        }
        i := i + 1;
      }
      assert rows[..i] == rows;
    }

    /** The rows of the old table, in order: a row with fewer than four cells
        is skipped; a row without a title, or with exactly four cells (the
        channel is read from a fifth), raises and is skipped; any other row is
        appended. */
    method ReadTable(rows: seq<TableRow>)
      modifies this`wlanScanResults
      ensures wlanScanResults == old(wlanScanResults) + TableEntries(rows)
    {
      var i := 0;
      while i < |rows|
        invariant i <= |rows|
        invariant wlanScanResults == old(wlanScanResults) + TableEntries(rows[..i])
      {
        TableEntriesStep(rows, i);
        assert (old(wlanScanResults) + TableEntries(rows[..i])) + TableRowEntries(rows[i]) ==
               old(wlanScanResults) + (TableEntries(rows[..i]) + TableRowEntries(rows[i]));
        var row := rows[i];
        if |row.cells| >= 4 && row.title.Some? && |row.cells| > 4 {
          assert TableRowEntries(row) == [RowEntry(row)];
          wlanScanResults := wlanScanResults + [RowEntry(row)];
        } else {
          assert TableRowEntries(row) == [];
        }
        i := i + 1;
      }
      assert rows[..i] == rows;
    }

    /** The attempts of `check_wlan_antennas`: an attempt whose pages open and
        show rows reads them (the modern list if it has rows, else the old
        table), sets `is_wifi_checked` and ends with True; after `maxVersuche`
        attempts without networks, False. */
    method ScanAttempts(pages: nat -> WlanPage, maxVersuche: nat) returns (ok: bool)
      modifies this`wlanScanResults, this`isWifiChecked
      ensures (ok, Fields()) == ScanSpec(old(Fields()), pages, maxVersuche)
    {
      var versuch := 0;
      while versuch < maxVersuche
        invariant versuch <= maxVersuche
        invariant forall i: nat :: i < versuch ==> !FindsNetworks(pages(i))
      {
        var page := pages(versuch);
        if page.reached && |page.modern| > 0 {
          ReadModern(page.modern);
          isWifiChecked := true;
          FirstHitIs((j: nat) => FindsNetworks(pages(j)), maxVersuche, versuch);
          return true;
        }
        if page.reached && |page.table| > 0 {
          ReadTable(page.table);
          isWifiChecked := true;
          FirstHitIs((j: nat) => FindsNetworks(pages(j)), maxVersuche, versuch);
          return true;
        }
        versuch := versuch + 1;
      }
      FirstHitNone((j: nat) => FindsNetworks(pages(j)), maxVersuche);
      return false;
    }

    /** The body of `get_firmware_version`: the menu check (False when not
        ready); a click on the home entry whose result is ignored; then `sys`
        and `mUp` (False when either cannot be clicked); the version from the
        primary element, else the `MM.mm` in the fallback element; a
        non-empty version is stored and returned, anything else gives False. */
    method ReadVersionPage(p: VersionPage) returns (version: Option<string>)
      requires browser.live
      modifies this`isLoggedIn, this`osVersion
      ensures (version, Fields()) == ReadVersion(old(Fields()), p)
    {
      var ready := IsLoggedInAndMenuReady(p.menu);
      if !ready {
        return None;
      }
      var _, _ := browser.Klicken("//*[@id=\"mHome\"] | //*[@id=\"overview\"]", p.home);
      var system, _ := browser.Klicken("//*[@id=\"sys\"]", p.system);
      if !system {
        return None;
      }
      var update, _ := browser.Klicken("//*[@id=\"mUp\"]", p.update);
      if !update {
        return None;
      }
      var text := VersionText(p);
      if text.None? || text.value == [] {
        return None;
      }
      osVersion := text;
      version := text;
    }

    /** `get_firmware_version`: behind `require_login`, then the body above. */
    method GetFirmwareVersion(view: MenuView, relogin: LoginEnv, p: VersionPage) returns (outcome: TextOutcome)
      modifies this
      ensures (outcome, Fields()) == VersionSpec(old(Fields()), old(browser.live), view, relogin, p)
    {
      var g := RequireLogin(view, relogin);
      if g == GuardHangs {
        return TextHangs;
      }
      if g == Refused {
        return TextReturned(None);
      }
      var version := ReadVersionPage(p);
      outcome := TextReturned(version);
    }

    /** The three XPaths of one page of `get_box_model`, in order, until one
        yields a model. */
    method SearchModel(els: ModelElements) returns (model: Option<string>)
      ensures model == PageModel(els)
    {
      var k := 0;
      while k < ModelXPaths
        invariant k <= ModelXPaths
        invariant forall j: nat :: j < k ==> ModelOf(els(j)).None?
      {
        var m := ModelOf(els(k));
        if m.Some? {
          FirstHitIs((j: nat) => ModelOf(els(j)).Some?, ModelXPaths, k);
          return m;
        }
        k := k + 1;
      }
      FirstHitNone((j: nat) => ModelOf(els(j)).Some?, ModelXPaths);
      return None;
    }

    /** `get_box_model`: behind `require_login`; False when the menu is not
        ready; the model from the current page, else, when the overview can
        be opened, from the overview; a model found is stored and returned;
        otherwise `"UNKNOWN"` is stored and the result is False. */
    method GetBoxModel(view: MenuView, relogin: LoginEnv, p: ModelPages) returns (outcome: TextOutcome)
      modifies this
      ensures (outcome, Fields()) == BoxModelSpec(old(Fields()), old(browser.live), view, relogin, p)
    {
      var g := RequireLogin(view, relogin);
      if g == GuardHangs {
        return TextHangs;
      }
      if g == Refused {
        return TextReturned(None);
      }
      var ready := IsLoggedInAndMenuReady(p.menu);
      if !ready {
        return TextReturned(None);
      }
      var model := SearchModel(p.current);
      if model.None? {
        var overviewShown, _ := browser.Klicken("//*[@id=\"overview\"] | //*[@id=\"mHome\"]", p.overview);
        if overviewShown {
          model := SearchModel(p.overviewPage);
        }
      }
      if model.None? {
        boxModel := Some("UNKNOWN");
        return TextReturned(None);
      }
      boxModel := model;
      outcome := TextReturned(model);
    }

    /** `check_wlan_antennas`: behind `require_login`; empties the results,
        then the attempts of the scan. */
    method CheckWlanAntennas(view: MenuView, relogin: LoginEnv, pages: nat -> WlanPage, maxVersuche: nat := 2)
      returns (outcome: Outcome)
      modifies this
      ensures (outcome, Fields()) == WlanSpec(old(Fields()), old(browser.live), view, relogin, pages, maxVersuche)
    {
      var g := RequireLogin(view, relogin);
      if g == GuardHangs {
        return Hangs;
      }
      if g == Refused {
        return Returned(false);
      }
      wlanScanResults := [];
      var ok := ScanAttempts(pages, maxVersuche);
      outcome := Returned(ok);
    }
  }
}
