# fritz-reset-tool, modelled in Dafny

fritz-reset-tool drives the web interface of an AVM FRITZ!Box router through
Selenium. It finds the box on the network, logs in, reads the model and the
FRITZ!OS version, decides between a firmware update and a factory reset, checks
the Wi-Fi antennas, and asks the operator on the console what to do when a step
fails. This project models the logic of those steps and proves properties about
it:

- `browser_utils.dfy`: the `Browser` wrapper of `browser_utils.py`, a class whose
  driver is a field. It covers the cache-busting reload and its round trip, and
  `quit` dropping the driver.
- `environment.dfy`: the things the program only observes, written as oracles:
  which candidate address answers in which round (`Probe`), what each click
  attempt finds, and the rounds of `skip_configuration`.
- `fritzbox_api.dfy` with `fritzbox_text.dfy` and `fritzbox_api_facts.dfy`: the
  `FritzBox` class of `fritzbox_api.py`.
  - The methods are imperative and are proved against specification functions:
    the address scan, `login` (reload, language, password wait, typing, dialog
    sweep), the `require_login` guard, the expert-mode check, the version and
    model readers, and the Wi-Fi scan.
  - The driver calls of `login` are logged as a sequence, so that "only the kept
    password is ever typed" can be stated.
  - The regular expressions `(\d{4,})` and `(\d{1,2})\.(\d{2})` and the
    version-fallback `(\d{2}\.\d{2})` are written out as functions, with
    round-trip lemmas.
- `firmware_manager.dfy`: the firmware table and `get_firmware_path`.
- `models.dfy`, `models_facts.dfy`, `legacy_login.dfy`: the older `FritzBox` of
  `models.py`. It has a three-attempt console login, reads the model and version
  from element text, and decides update or reset.
- `fritz_steps.dfy`: the module-level steps of `fritz_steps.py`. These are the
  version cache, the TIM reset and update choice, the standard step list and the
  branding check.
- `retry.dfy`, `utils.dfy`, `workflow.dfy`, `workflow_orchestrator.dfy` with
  `workflow_orchestrator_facts.dfy`: the three drivers that run steps with
  operator questions.
  - Each step's successive calls are an oracle (`Call`: raises, returns
    `False`, returns something else).
  - The console is a `Console` object holding the typed lines and a read
    position.
- `prompt.dfy`, `text.dfy`, `signal.dfy`, `common.dfy`: the shared pieces. These
  are `input()` and `strip().lower()`, the Python string built-ins the code
  relies on (`strip`, `lower`, `replace`, `int`, `split(...)[-1]`), the signal
  colour rule, and "first index where" searches.

Sleeps and timeouts are not modelled: a wait either finds its element or raises,
as its oracle says. Python's integers are unbounded, like Dafny's `int`.

## Model

| member | source | states |
|---|---|---|
| BrowserUtils.Normalise | browser_utils.py:34-35 | a plain string becomes an XPath locator holding that string; a pair is kept |
| BrowserUtils.NormaliseIdempotent | browser_utils.py:34-35 | normalising an already normalised locator changes nothing |
| BrowserUtils.BustSeparator | browser_utils.py:113 | the separator is `&` exactly when the address already contains `?`, and `?` otherwise |
| BrowserUtils.CacheBusted | browser_utils.py:111-114 | the busted address starts with the original address and ends in `_=` and the decimal time |
| BrowserUtils.TrailingDigits | browser_utils.py:111-114 | the counted suffix is all digits and cannot be extended by a digit |
| BrowserUtils.SplitCacheBust | browser_utils.py:111-114 | a recovered page address is a prefix of the text it was split from |
| BrowserUtils.TrailingDigitsAppended | browser_utils.py:114 | digits appended after a non-digit are exactly the trailing run |
| BrowserUtils.CacheBustRoundTrip | browser_utils.py:111-114 | splitting a cache-busted address recovers the page address and the time |
| BrowserUtils.ReloadCalls | browser_utils.py:105-115 | the calls are the cookie deletion when asked, then one `get` of the (busted) address, in that order |
| BrowserUtils.SecondBustUsesAmpersand | browser_utils.py:113 | busting an already busted address appends with `&` |
| BrowserUtils.Browser.constructor | browser_utils.py:24-27 | a new browser holds a live driver and has issued no calls |
| BrowserUtils.Browser.SicherWarten | browser_utils.py:29-52 | the locator waited for is the normalised argument; found only with a driver and an element that appears |
| BrowserUtils.Browser.Klicken | browser_utils.py:54-78 | True exactly when the driver is there and some attempt among the first `versuche` succeeds; that first success ends the attempts, otherwise all `versuche` run |
| BrowserUtils.Browser.Schreiben | browser_utils.py:80-88 | True exactly when a driver is there, the field was found and a text was given; only then are keys sent, and they are that text |
| BrowserUtils.Browser.GetUrl | browser_utils.py:90-97 | True exactly when a driver is there and the navigation does not raise; a missing driver issues nothing |
| BrowserUtils.Browser.Reload | browser_utils.py:99-119 | without a driver, False and no call; otherwise it issues the calls of `ReloadCalls` and returns whether the load succeeded |
| BrowserUtils.Browser.Quit | browser_utils.py:122-128 | True exactly when a driver was there; afterwards there is none, so a second call returns False |
| Common.FirstHit | fritzbox_api.py:152-178 | a reported index lies in range and satisfies the predicate |
| Common.FirstHitFirst | fritzbox_api.py:152-178 | nothing before the reported index satisfies the predicate; no index means none does |
| Common.FirstHitIs | fritzbox_api.py:152-178 | a hit with only misses before it is the one reported |
| Common.FirstHitNone | fritzbox_api.py:152-178 | with no hit in range nothing is reported |
| Common.FirstHitLonger | fritzbox_api.py:152-178 | scanning further keeps a hit already found |
| Environment.ScanStep | fritzbox_api.py:154-178 | the step reported is an answering probe within the rounds |
| Environment.ScanStepFirst | fritzbox_api.py:154-178 | no earlier step answered; no step reported means none answered |
| Environment.ScanUrl | fritzbox_api.py:154-178 | the address adopted is one of the four candidates, and is absent exactly when no probe answered |
| Environment.ScanHitAt | fritzbox_api.py:154-178 | an answer at a round and candidate, with none before, is what the scan reports |
| Environment.ScanMoreRounds | fritzbox_api.py:154-178 | more rounds adopt the same address once one answered |
| Environment.ScanPrefersEarlierCandidates | fritzbox_api.py:154-159 | a later candidate is adopted only when the earlier ones stayed silent in that round |
| Environment.FirstClick | browser_utils.py:54-78 | the attempt reported succeeds and lies among the first `versuche` |
| Environment.FirstClickAt | browser_utils.py:54-78 | a success with only failures before it is the attempt reported |
| Environment.NoClick | browser_utils.py:54-78 | all attempts failing means no attempt is reported |
| Environment.FirstClickFirst | browser_utils.py:54-78 | the attempts before the one reported all failed; nothing reported means all failed |
| Environment.MoreAttemptsNeverHurt | browser_utils.py:54-78 | raising `versuche` never turns a success into a failure |
| Environment.SkipRoundsRun | models.py:545-560 | two rounds run exactly when the first button was pressed, else one |
| Environment.SkipConfigured | models.py:545-560 | True exactly when both rounds pressed `Button1` |
| FirmwareManager.FileKey | fritzbox_api.py:82 | the key is the version type followed by the five characters of `_file` |
| FirmwareManager.TableFile | fritzbox_api.py:27-60 | a file exists exactly for the known models and their listed types |
| FirmwareManager.GetFirmwarePath | fritzbox_api.py:73-103 | a path under `firmware und recovery` is returned exactly when the table has the file and it exists; otherwise the file dialog |
| FirmwareManager.TableModels | fritzbox_api.py:27-60 | the table knows exactly 7590, 7530, 7490, 7582, 6660 and 6890 |
| FirmwareManager.BridgeOnlyFor7590 | fritzbox_api.py:27-60 | every model except the 7590 goes to the file dialog for a bridge image |
| FirmwareManager.SuffixedModelAsksOperator | fritzbox_api.py:82-98 | a model name longer than four characters (such as `6890_LTE`) never finds a shipped image |
| FirmwareManager.KnownModelFinalShipped | fritzbox_api.py:73-103 | every known model has a shipped final image, used whenever the file exists |
| FritzSteps.BeendeBrowser | fritz_steps.py:11-13 | a present driver is quit once more; None changes nothing |
| FritzSteps.UpdateOrReset | fritz_steps.py:421-427 | the reset route exactly when the cached version is "8.03", else the update with the given path |
| FritzSteps.FactoryResetEnd | fritz_steps.py:367-418 | the menu failure exactly when the menu was closed and `sys` could not be clicked; the `TypeError` only without the OK click; a finished reset clicked OK, found the box again, and is verified exactly on the language page |
| FritzSteps.ResetExactlyAt803 | fritz_steps.py:258-274 | after the version check the route is the reset exactly when the stripped version text is "8.03"; an empty field gives the update |
| FritzSteps.MissingOkRaises | fritz_steps.py:399-412 | once the menu is open, the reset ends in the `TypeError` exactly when OK was not clicked |
| FritzSteps.ErstelleStandardSteps | fritz_steps.py:276-282 | four steps with distinct titles: login with the password, version check, update-or-reset with the path, antenna check |
| FritzSteps.GetStepsFromBranding | fritz_steps.py:284-308 | the steps are always the standard ones; detection failed exactly when loading the page raised; TIM exactly when the lower-cased brand text contains "tim" |
| FritzSteps.BrandingKeepsSteps | fritz_steps.py:284-308 | any two start pages give the same steps |
| FritzSteps.UpperCaseTimIsTim | fritz_steps.py:294-298 | a brand text "TIM" is recognised as TIM |
| FritzSteps.SkipConfiguration | fritz_steps.py:430-445 | True exactly when `Button1` was pressed in both rounds |
| FritzSteps.Script.constructor | fritz_steps.py:8-9 | the address is `http://fritz.box` and the version cache is empty |
| FritzSteps.Script.WarteAufFritzbox | fritz_steps.py:15-39 | True exactly when a probe answered; the address becomes the one the scan adopts, and is kept otherwise |
| FritzSteps.Script.LoginAttemptStep | fritz_steps.py:74-113 | one attempt ends as `OneAttempt` says, a page load that raises included; a missing password is read from the console |
| FritzSteps.Script.AttemptAfterPassword | fritz_steps.py:78-113 | the rest of an attempt, from the uncaught page load on, ends as `AfterPassword` says |
| FritzSteps.Script.Login | fritz_steps.py:69-113 | the run ends as `LoginSpec` says: not reachable, logged in, gave up, input ended, page load raised, language scan raised, or raised after three attempts |
| FritzSteps.Script.FirmwareVersionPruefenWrapper | fritz_steps.py:258-274 | the cache holds the stripped text, or None when it is empty; an exception leaves the cache unchanged |
| FritzSteps.Script.TimFactoryReset | fritz_steps.py:367-418 | the end is `FactoryResetEnd` of the box's behaviour; `FRITZ_URL` moves to the rescan's hit only when the reset finished |
| FritzSteps.Script.TimUpdateOderReset | fritz_steps.py:421-427 | the route is `UpdateOrReset` of the cache; the reset runs exactly on the reset route; the update route leaves the address, and the reset route moves it to the rescan's hit exactly when the reset finished |
| FritzboxApi.FirstButton | fritzbox_api.py:384-396 | the button reported can be clicked, is one of the positive buttons and no earlier one can; none is reported without a driver or when none can be clicked |
| FritzboxApi.RoundActionOf | fritzbox_api.py:300-338 | the first of the five handlers that reports a dialog; when none does, the generic fallback with the button `FirstButton` reports |
| FritzboxApi.SweepStop | fritzbox_api.py:300-338 | the stopping round lies among the fifteen and ends the sweep |
| FritzboxApi.PasswordFieldFound | fritzbox_api.py:281-287 | the wait reported saw the field and every earlier wait did not |
| FritzboxApi.KeptPassword | fritzbox_api.py:257-258 | the argument when it is a non-empty string, else the stored password |
| FritzboxApi.LanguageLog | fritzbox_api.py:278-279 | at most one driver call |
| FritzboxApi.TypedLog | fritzbox_api.py:289-297 | keys are sent exactly when the form asks for a password and one is known |
| FritzboxApi.Entered | fritzbox_api.py:274-297 | entering the credentials keeps the address, the password and the scan results |
| FritzboxApi.ModernEntry | fritzbox_api.py:973-991 | one entry for a readable row, none for an unreadable one |
| FritzboxApi.ModernEntries | fritzbox_api.py:967-993 | no more entries than rows |
| FritzboxApi.TableEntry | fritzbox_api.py:1002-1022 | an entry exactly for rows with at least five cells and a title |
| FritzboxApi.RowEntry | fritzbox_api.py:1008-1020 | the channel is the stripped fifth cell, the MAC address the stripped fourth cell, the signal the stripped title |
| FritzboxApi.TableRowEntries | fritzbox_api.py:1002-1022 | one entry exactly when `TableEntry` yields one |
| FritzboxApi.TableEntries | fritzbox_api.py:996-1024 | no more entries than rows |
| FritzboxApi.WlanHit | fritzbox_api.py:951-1035 | the attempt reported finds networks within `max_versuche` and no earlier attempt does; none reported means none does |
| FritzboxApi.VersionText | fritzbox_api.py:749-767 | the stripped primary text when there is one; None exactly when both waits raised |
| FritzboxApi.ModelOf | fritzbox_api.py:799-808 | a missing element yields nothing; otherwise `_extract_model_number` of its text |
| FritzboxApi.FirstModelAt | fritzbox_api.py:794-808 | the element reported is one of the three XPaths and yields a model |
| FritzboxApi.PageModel | fritzbox_api.py:794-808 | a page yields a model exactly when one of its three elements does |
| FritzboxApi.SweepSkips | fritzbox_api.py:300-338 | a round that ends nothing passes the sweep on to the next round |
| FritzboxApi.SweepSucceedsAtStop | fritzbox_api.py:300-338 | the sweep succeeds exactly when it stops at a round whose menu is ready |
| FritzboxApi.SweepStopIsFirst | fritzbox_api.py:300-338 | the sweep stops at the first ending round of the fifteen, or at none when none ends it |
| FritzboxApi.PasswordFieldAt | fritzbox_api.py:281-287 | the first wait that sees the field is the one reported |
| FritzboxApi.PasswordFieldNever | fritzbox_api.py:281-287 | with no wait seeing the field none is reported |
| FritzboxApi.FritzBox.constructor | fritzbox_api.py:138-150 | the default address and every other field empty or False |
| FritzboxApi.FritzBox.WarteAufErreichbarkeit | fritzbox_api.py:152-178 | True exactly when a probe answered; the address becomes the scan's hit and is kept otherwise |
| FritzboxApi.FritzBox.IsLoggedInAndMenuReady | fritzbox_api.py:228-247 | the result is `Ready` of the view and is stored in `is_logged_in` |
| FritzboxApi.FritzBox.HandleLanguageSelection | fritzbox_api.py:187-203 | True exactly when the language screen was shown and both clicks succeeded |
| FritzboxApi.FritzBox.HandleAnyDialogButton | fritzbox_api.py:378-403 | the button clicked is `FirstButton`; True exactly when one was clicked |
| FritzboxApi.FritzBox.DialogStep | fritzbox_api.py:302-338 | the action is `RoundActionOf` of the round |
| FritzboxApi.FritzBox.SweepRound | fritzbox_api.py:300-338 | the round ends the sweep exactly when its menu is ready or the login form is back; the flag is the menu check |
| FritzboxApi.FritzBox.DialogSweep | fritzbox_api.py:300-338 | True exactly when the sweep stops at a round with the menu ready |
| FritzboxApi.FritzBox.WaitForPasswordField | fritzbox_api.py:281-287 | found exactly when a wait saw the field; the page loads, each a `get` of the address, run up to and including that wait |
| FritzboxApi.FritzBox.SwitchLanguage | fritzbox_api.py:278-279 | switched exactly as `LanguageSwitched`; the language becomes English then; the calls logged are `LanguageLog` |
| FritzboxApi.FritzBox.TypePassword | fritzbox_api.py:289-297 | the calls logged are `TypedLog` of the form and the stored password |
| FritzboxApi.FritzBox.EnterPassword | fritzbox_api.py:278-297 | the result and the calls logged are those of the entry specification; the language is English exactly when switched |
| FritzboxApi.FritzBox.Authenticate | fritzbox_api.py:272-338 | the outcome, the fields and the calls logged are those of the specification of the rest of `login` |
| FritzboxApi.FritzBox.Login | fritzbox_api.py:249-338 | the outcome and fields are the login specification's; the browser is replaced only when the box answered and a browser could be started |
| FritzboxApi.FritzBox.StartSession | fritzbox_api.py:259-338 | a fresh live browser whose log is the cookie-clearing cache-busting reload followed by the rest of `login` |
| FritzboxApi.FritzBox.RequireLogin | fritzbox_api.py:106-130 | the guard and the fields are the guard specification's; proceeding leaves a live browser |
| FritzboxApi.FritzBox.ActivateExpertModeIfNeeded | fritzbox_api.py:584-640 | the outcome is the expert specification's; the fields are those the guard leaves |
| FritzboxApi.FritzBox.ReadModern | fritzbox_api.py:967-993 | the results become the old results followed by `ModernEntries` of the rows |
| FritzboxApi.FritzBox.ReadTable | fritzbox_api.py:996-1024 | the results become the old results followed by `TableEntries` of the rows |
| FritzboxApi.FritzBox.ScanAttempts | fritzbox_api.py:951-1035 | the result and the fields are the scan specification's |
| FritzboxApi.FritzBox.ReadVersionPage | fritzbox_api.py:738-777 | the result and the stored version are `ReadVersion` of the page |
| FritzboxApi.FritzBox.GetFirmwareVersion | fritzbox_api.py:734-777 | the outcome and the fields are `VersionSpec`: the guard, then the page |
| FritzboxApi.FritzBox.SearchModel | fritzbox_api.py:794-808 | the model is `PageModel` of the three elements |
| FritzboxApi.FritzBox.GetBoxModel | fritzbox_api.py:779-827 | the outcome and the fields are the model specification's: the guard, the current page, then the overview |
| FritzboxApi.FritzBox.CheckWlanAntennas | fritzbox_api.py:941-1035 | the outcome and the fields are the antenna specification's: the guard, the emptied results, then the attempts |
| FritzboxApiFacts.LoginAdoptsAddressAndPassword | fritzbox_api.py:254-258 | with no answer, False and nothing changes; otherwise the address found and the kept password are adopted |
| FritzboxApiFacts.ReadySessionSkipsCredentials | fritzbox_api.py:274-276 | an unforced login whose menu is ready after the reload returns True and types nothing |
| FritzboxApiFacts.LoginTrueMeansLoggedIn | fritzbox_api.py:300-338 | a truth value from the sweep equals the session flag |
| FritzboxApiFacts.NoKeysBeforeTyping | fritzbox_api.py:278-287 | the language step and the waits type nothing |
| FritzboxApiFacts.AuthTypesStoredPassword | fritzbox_api.py:289-297 | after the reload, the only text typed is the stored password, into `uiPass` |
| FritzboxApiFacts.LoginIsReloadThenAuth | fritzbox_api.py:259-272 | a login that got a browser issues the reload and then the rest |
| FritzboxApiFacts.TypedPasswordIsKept | fritzbox_api.py:257-297 | the only text `login` ever types is the kept password |
| FritzboxApiFacts.CallsOnlyWithBox | fritzbox_api.py:254-268 | the browser is driven only once the box answered and the browser started |
| FritzboxApiFacts.SweepLooksAtFifteenRounds | fritzbox_api.py:300 | rounds after the fifteenth never change the sweep's end |
| FritzboxApiFacts.SweepRoundDecides | fritzbox_api.py:300-338 | a ready round succeeds; a round back on the form with no menu fails; other rounds pass the decision on |
| FritzboxApiFacts.GuardProceedsOnlyWhenLoggedIn | fritzbox_api.py:106-130 | the guard proceeds exactly when the session was ready or the re-login returned True |
| FritzboxApiFacts.RefusedGuardSkipsMethod | fritzbox_api.py:120-130 | a refusing guard makes the antenna check, the expert check and the model reader return False with the fields the re-login left |
| FritzboxApiFacts.FourCellRowDropped | fritzbox_api.py:1006-1012 | a row of exactly four cells adds no entry |
| FritzboxApiFacts.FullRowAppended | fritzbox_api.py:1008-1020 | a titled row with five or more cells adds exactly its entry |
| FritzboxApiFacts.ScanResultsAreOneAttempt | fritzbox_api.py:949-1035 | the results are exactly the networks of the first attempt that found some, and the check flag is set; with no such attempt the results are empty |
| FritzboxApiFacts.ExpertSkippedFrom715 | fritzbox_api.py:591-599 | from 7.15 on, or with no readable version, the method returns True without the UI |
| FritzboxApiFacts.VersionIsStored | fritzbox_api.py:738-777 | a returned version is non-empty and stored; False keeps the stored one; no menu means False |
| FritzboxApiFacts.VersionBehindGuard | fritzbox_api.py:734-777 | behind the guard too, a version returned is non-empty and stored, and a refusal returns False |
| FritzboxApiFacts.ModelIsStored | fritzbox_api.py:788-827 | with the menu ready a model is always stored: the one returned, or "UNKNOWN" with False |
| FritzboxApiFacts.CurrentPageWins | fritzbox_api.py:792-808 | a model on the current page is returned whatever the overview shows |
| FritzboxText.DigitRun | fritzbox_api.py:839 | the run counted stays within the text and is not followed by a digit |
| FritzboxText.LongNumberStart | fritzbox_api.py:839 | the start reported begins four digits and no earlier position does |
| FritzboxText.FirstLongNumber | fritzbox_api.py:839 | a match exactly when such a start exists; it has at least four characters, all digits |
| FritzboxText.ModelFromContent | fritzbox_api.py:839-850 | a model exactly when the text holds a number of four or more digits |
| FritzboxText.ExtractModelNumber | fritzbox_api.py:829-850 | a missing text gives None; otherwise the model read from the stripped text |
| FritzboxText.LabelledNumber | fritzbox_api.py:839 | a digit-free label followed by a number of at least four digits yields that number |
| FritzboxText.LabelledModel | fritzbox_api.py:839-850 | the same for the model, with the LTE rule |
| FritzboxText.Model6890AlwaysLte | fritzbox_api.py:843-846 | a 6890 is never reported without `_LTE` |
| FritzboxText.LteModelsAskOperator | fritzbox_api.py:843-846 | models read with `_LTE` are not table keys, so their image always comes from the file dialog |
| FritzboxText.VersionGroups | fritzbox_api.py:594-599 | both numbers are below 100 |
| FritzboxText.VersionStart | fritzbox_api.py:594-599 | the start reported is a match and no earlier position is |
| FritzboxText.ParseVersion | fritzbox_api.py:594-599 | a result exactly when the text holds a match |
| FritzboxText.FallbackVersion | fritzbox_api.py:764-766 | a result is five characters with the dot in the middle |
| FritzboxText.ExpertDecision | fritzbox_api.py:591-599 | no version, an empty one or one without `major.minor` needs no check; the UI is checked exactly when a version is read and is older than 7.15 |
| FritzboxText.TwoDigits | fritzbox_api.py:764 | two digit characters |
| FritzboxText.VersionRoundTrip | fritzbox_api.py:594-599 | `MM.mm` after a digit-free label reads back as `(MM, mm)` |
| FritzboxText.ShortVersionRoundTrip | fritzbox_api.py:594-599 | `M.mm` after a digit-free label reads back as `(M, mm)` |
| FritzboxText.FallbackVersionFound | fritzbox_api.py:764-766 | the fallback finds `MM.mm` after a label, and it parses back to the same numbers |
| FritzboxText.ExpertCheckBelow715 | fritzbox_api.py:591-599 | for a version `MM.mm`, the UI is checked exactly below 7.15 |
| LegacyLogin.PasswordText | models.py:151-152 | None reads as the empty text, a given password as itself |
| LegacyLogin.Stored | models.py:153 | the password of the last attempt that stored one, or the earlier value when none did |
| LegacyLogin.OneAttempt | models.py:150-189 | running out of input with no password ends the run; otherwise one password is recorded and the run ends with the load error exactly when the page load raises; an attempt that logs in had its credentials accepted and sets the flag; raising after three only on the last attempt |
| LegacyLogin.AfterPassword | models.py:155-189 | the passwords and console position are kept; the load error exactly when the page load raises; success needs accepted credentials; raising after three only on the last attempt; going on from the last attempt only without field and language page |
| LegacyLogin.AttemptsFrom | models.py:150-189 | the passwords only grow and never past three; the console only moves forward; a set flag stays set |
| LegacyLogin.LoginSpec | models.py:144-189 | the box is unreachable exactly when no probe answered, and then nothing changes; at most three passwords are tried, the console only moves forward, and a set flag stays set |
| LegacyLogin.AtMostThreeAttempts | models.py:150-189 | at most three attempts; raising or giving up happens only after the third |
| LegacyLogin.EndingAttempt | models.py:150-189 | a run that does not give up ends in one of its three attempts, whose own end is the run's end |
| LegacyLogin.SuccessMeansAccepted | models.py:174-183 | a successful login had its last password accepted and set `is_logged_in` |
| LegacyLogin.LoadFailureEndsRun | models.py:155 | a run ending with the load error had the page load of its last attempt raise, after recording that attempt's password |
| LegacyLogin.FirstLoadRaises | models.py:150-155 | with a password given, a first page load that raises ends the run at once, one password recorded and nothing read |
| LegacyLogin.GaveUpWithoutField | models.py:157-172 | the run gives up only when its third attempt saw neither field nor language page |
| LegacyLogin.RefusalPromptsAgain | models.py:185-187 | after a refusal the next attempt reads its password from the console |
| LegacyLogin.ThreeRefusalsRaise | models.py:185-189 | three refusals raise after exactly three attempts: the given password, then two console lines |
| LegacyLogin.CleanupFailureKeepsFlag | models.py:180-182 | a clean-up that raises leaves `is_logged_in` set, however the login ends |
| Models.Browser.Klicken | models.py:43-58 | True exactly when some attempt of the first `versuche` succeeds; the first success ends the attempts, otherwise all `versuche` run |
| Models.BoxModelFromText | models.py:358-366 | a model exactly when the stripped text contains `FRITZ!Box` |
| Models.VersionFromText | models.py:337-346 | the stripped text, or None when it is empty |
| Models.ImageName | models.py:511 | `FRITZ.Box_`, the model, `-`, the target and `.image`, and nothing else |
| Models.AutoImage | models.py:504-519 | a non-empty path only for a model with a target version |
| Models.FritzBox.constructor | models.py:76-85 | the default address, nothing known, not logged in |
| Models.FritzBox.WarteAufErreichbarkeit | models.py:87-113 | True exactly when a probe answered; the address becomes the hit, and is kept otherwise |
| Models.FritzBox.LoginAttemptStep | models.py:151-189 | one attempt stores its password and ends as `OneAttempt` says, a raising `get_url` included |
| Models.FritzBox.AttemptAfterPassword | models.py:155-189 | the rest of an attempt, from the uncaught `get_url` on, ends as `AfterPassword` says |
| Models.FritzBox.Login | models.py:144-189 | the run ends as `LoginSpec` says; the password and flag are those of the run |
| Models.FritzBox.GetBoxModel | models.py:350-371 | the model found is stored; otherwise the stored model is kept |
| Models.FritzBox.GetFirmwareVersion | models.py:330-348 | the stripped non-empty text is returned and stored; otherwise None |
| Models.FritzBox.HandleFirmwareOrReset | models.py:488-543 | a stored model is kept and a missing one is read; a version read is stored, otherwise the stored one is kept; the decision is `Choose` of the model, the version read, the automatic image and the chosen file |
| Models.FritzBox.SkipConfiguration | models.py:545-560 | True exactly when both rounds pressed `Button1`; one round runs when the first fails |
| ModelsFacts.ModelHasNoLabel | models.py:362-363 | the model read never contains `FRITZ!Box` |
| ModelsFacts.AfterLastLabelled | models.py:362-363 | the text after a label followed by a name without `!` is that name |
| ModelsFacts.ModelRoundTrip | models.py:358-366 | a title `FRITZ!Box <model>` yields the model |
| ModelsFacts.NoFileWithoutImage | models.py:524-530 | no decision exactly when no image was found and the dialog was cancelled |
| ModelsFacts.AtTargetNotUpdated | models.py:533-541 | a model at its target version is never updated |
| ModelsFacts.UpdateUsesShippedImage | models.py:504-535 | a known model is updated with its shipped image whenever it exists |
| ModelsFacts.UnknownModelNeverUpdated | models.py:533-541 | an unknown model is never updated, and is reset exactly with a file and version "8.03" |
| ModelsFacts.TargetDecidesAt803 | models.py:493-541 | a 7590 on 8.03 is reset; a 7530 on 8.03 is updated to the older 8.02 |
| ModelsFacts.NamesDifferFromTable | models.py:511 | the names built here never name a file of the firmware table in fritzbox_api.py |
| Prompt.Normalize | utils.py:46 | no longer than the line and with no white space at either end |
| Prompt.NormalizeIdempotent | utils.py:46 | a trimmed lower-case answer is read as itself |
| Prompt.Words | utils.py:46 | one word per line; `WordsAt` says each is the normalised line |
| Prompt.NextAnswer | utils.py:45-58 | an answer reported is accepted and is the word just before the position it reports |
| Prompt.NextAnswerSkips | utils.py:45-58 | the words skipped were all rejected; running out means none was accepted |
| Prompt.AskYes | workflow_orchestrator.py:119 | no answer exactly past the end of input; yes exactly for a bare `j` or `J` |
| Prompt.NextAnswerAt | utils.py:45-58 | the first accepted word is the answer |
| Prompt.NextAnswerNone | utils.py:45-58 | with no accepted word left, the question ends with the input |
| Prompt.AnswerPos | utils.py:45-58 | just past the accepted line, or at or beyond the end of the input |
| Prompt.Console.constructor | utils.py:46 | the console holds the given lines, none read |
| Prompt.Console.ReadLine | workflow_orchestrator.py:119 | the next line, advancing by one, or None at the end |
| Prompt.Console.Ask | utils.py:45-58 | the answer is `NextAnswer` of the words, and the position moves past it |
| Prompt.Console.ReadWord | utils.py:46 | the next line as the questions compare it, advancing by one, or None at the end |
| Prompt.Console.AskYesNo | workflow_orchestrator.py:130 | the answer is `AskYes` of the next line |
| Retry.RetrySpec | workflow_orchestrator.py:30-89 | the console only moves forward; at least one call is made, and more than two only after a line was read |
| Retry.AnswerResult | workflow_orchestrator.py:77-87 | 'b' stops, 'n' asks for a new box, any other word passes |
| Retry.PassesWithoutAsking | workflow_orchestrator.py:30-68 | a passing call among the first two passes at once, after exactly as many calls, reading nothing |
| Retry.AnswerDecides | workflow_orchestrator.py:72-89 | after two failures the first accepted answer decides: 'b', 'ü' and 'n' end the wrapper, 'w' starts it afresh after that line |
| Retry.NoAnswerEndsWrapper | workflow_orchestrator.py:72-75 | two failures and no accepted answer end with the input |
| Retry.AfterTwoFailures | workflow_orchestrator.py:72-89 | the wrapper after two failed calls, one answer at a time |
| Retry.OnlyTheOperatorStops | workflow_orchestrator.py:77-87 | a stop follows a typed 'b' and a new box a typed 'n' |
| Retry.FalseCountsOnlyInOrchestrator | utils.py:33-43 | a step returning False passes on its first call in utils.py; in the orchestrator two False results lead to the question |
| Signal.Classify | models.py:291-296 | red exactly up to 30, green exactly above 60, yellow in between |
| Signal.ClassifyMonotone | models.py:291-296 | a stronger signal never gets a worse colour |
| Signal.IntOrZero | models.py:291 | the empty text reads as 0; otherwise `int` of the text |
| Signal.LevelOf | models.py:291-296 | a level exactly when the strength could be read |
| Signal.LegacyLessThanIsRed | models.py:290-291 | any title starting with `<` is rated red |
| Signal.PercentTitleRoundTrip | fritzbox_api.py:1040-1041 | a title `n%` reads back as `n` in both scripts |
| Signal.ReadingsAgreeWithoutLessThan | fritzbox_api.py:1040-1048 | without `<` both readings agree |
| Signal.ReadingsDisagreeOnLessThan | fritzbox_api.py:1040-1048 | `<70%` is red in the older scripts and green in fritzbox_api.py |
| Text.LStrip | fritzbox_api.py:756 | the result is a suffix that does not start with white space |
| Text.RStrip | fritzbox_api.py:756 | the result is a prefix that does not end with white space |
| Text.Strip | fritzbox_api.py:756 | the result neither starts nor ends with white space |
| Text.StripIsInfix | fritzbox_api.py:756 | the stripped text is a contiguous piece; empty exactly for all-white text |
| Text.StripNoSpaceEnds | fritzbox_api.py:756 | text without white space at its ends is its own strip |
| Text.LowerChar | fritz_steps.py:294 | A-Z and the Latin-1 capitals (0xC0-0xDE but 0xD7) move up by 32, so `Ü` becomes `ü`; every other character is kept |
| Text.Lower | fritz_steps.py:294 | the same length, every character lower-cased by `LowerChar` |
| Text.LowerIdempotent | fritz_steps.py:294 | lower-casing twice is lower-casing once |
| Text.Remove | models.py:290 | no occurrence of the character remains and nothing new is added |
| Text.RemoveAppend | models.py:290 | removing distributes over concatenation |
| Text.Decimal | models.py:291 | the decimal text is all digits and non-empty |
| Text.PyInt | models.py:291 | a number only for text that is not all white space; `int(str(n)) == n` is `DecimalParses` |
| Text.DecimalParses | models.py:291 | `int(str(n)) == n` |
| Text.AfterLast | models.py:362-363 | a suffix of the text, which `AfterLastHasNoSeparator` shows holds no separator |
| Text.AfterLastHasNoSeparator | models.py:362-363 | the text after the last separator holds no separator |
| Utils.RunStepWithRetry | utils.py:30-58 | the result, call count and console position are `RetrySpec`, where only exceptions fail |
| Utils.EndOf | utils.py:47-56 | 'b' stops the loop, 'n' asks for a new box, the end of input raises |
| Utils.StepsFrom | utils.py:68-70 | the loop runs between `k` and `count` steps, and all of them when every wrapper passed |
| Utils.NoExceptionNoQuestion | utils.py:68-70 | steps that do not raise all pass, reading nothing |
| Utils.OnlyTheOperatorEndsEarly | utils.py:68-70 | a break or new-box request follows a typed 'b' or 'n' |
| Utils.ResultOf | utils.py:72-79 | "restart" exactly on `RESTART_NEW_BOX` |
| Utils.RunSteps | utils.py:68-70 | the end and the console position are `StepsFrom` |
| Utils.RunWorkflow | utils.py:61-81 | the result follows the loop; the driver is quit twice on restart and once otherwise |
| Workflow.RunStep | workflow.py:7-19 | a passing first call is returned; after a failure one question, and only 'w' calls again |
| Workflow.AnswerAfterFailure | workflow.py:13-19 | 'w' calls once more, 'ü' skips, any other answer exits |
| Workflow.AsksOnlyOnce | workflow.py:13-19 | an unknown answer exits after one call |
| Workflow.StepsFrom | workflow.py:21-24 | an escape names a step in range and an escaping end |
| Workflow.RunWorkflow | workflow.py:21-24 | the end and the console position are `StepsFrom` over the four standard steps |
| Workflow.ResultsIgnored | workflow.py:21-24 | steps that do not raise all run, whatever they return |
| Workflow.EscapesAtFirstFailure | workflow.py:21-24 | the run escapes at the first step whose call raises |
| WorkflowOrchestrator.StepOutcome | workflow_orchestrator.py:102-114 | the run goes on exactly when the wrapper passed; "restart" exactly on a new-box request |
| WorkflowOrchestrator.Then | workflow_orchestrator.py:102-114 | an ended run runs nothing more; otherwise the step is appended to those run |
| WorkflowOrchestrator.ResetAnyway | workflow_orchestrator.py:140-142 | the run stops exactly when the input has ended |
| WorkflowOrchestrator.Decide | workflow_orchestrator.py:116-142 | the console only moves forward |
| WorkflowOrchestrator.ResetSite | workflow_orchestrator.py:160-167 | the UI route exactly when logged in, else "forgot password" |
| WorkflowOrchestrator.ResetSteps | workflow_orchestrator.py:159-178 | the reset step on the route `ResetSite` chooses is appended when the run goes on |
| WorkflowOrchestrator.Closing | workflow_orchestrator.py:186-193 | the steps run are kept and the console only moves forward |
| WorkflowOrchestrator.Finish | workflow_orchestrator.py:180-193 | the antenna check is appended when the run goes on |
| WorkflowOrchestrator.AfterMandatory | workflow_orchestrator.py:116-193 | the steps run only grow and the console only moves forward |
| WorkflowOrchestrator.Workflow | workflow_orchestrator.py:101-205 | the console only moves forward |
| WorkflowOrchestrator.Orchestrator.constructor | workflow_orchestrator.py:14-18 | no browser yet |
| WorkflowOrchestrator.Orchestrator.RunStepWithRetry | workflow_orchestrator.py:30-89 | the result, call count and console position are `RetrySpec`, where False fails too |
| WorkflowOrchestrator.Orchestrator.Step | workflow_orchestrator.py:102-114 | the stop, the steps run and the console are those of `Then` for one step |
| WorkflowOrchestrator.Orchestrator.DecideReset | workflow_orchestrator.py:116-142 | the reset decision and the console follow `Decide` |
| WorkflowOrchestrator.Orchestrator.Attempt | workflow_orchestrator.py:101-205 | the result is that of `Workflow` |
| WorkflowOrchestrator.Orchestrator.RunFullWorkflow | workflow_orchestrator.py:91-208 | the result is `Workflow`'s, and the fresh browser is quit exactly once, on every way out |
| WorkflowOrchestratorFacts.RefusedStepEndsRun | workflow_orchestrator.py:102-114 | a step that does not pass is the last one run |
| WorkflowOrchestratorFacts.MandatoryInOrder | workflow_orchestrator.py:102-114 | at least one step runs; the steps run are a prefix of reach, login, model, version, expert mode, and all five when none stopped the run |
| WorkflowOrchestratorFacts.RunStartsWithMandatorySteps | workflow_orchestrator.py:102-178 | every run starts with the reachability check, and later steps follow all five |
| WorkflowOrchestratorFacts.NewBoxOnlyOnRequest | workflow_orchestrator.py:196-205 | "restart" is returned only when an 'n' was read during the run |
| WorkflowOrchestratorFacts.ClosingAnswerDecides | workflow_orchestrator.py:186-193 | the first 'n' or 'b' decides the closing question |
| WorkflowOrchestratorFacts.ClosingWithoutAnswer | workflow_orchestrator.py:186-193 | with neither left the run returns None |
| WorkflowOrchestratorFacts.KnownModelEndsAtTypeError | workflow_orchestrator.py:123-132 | a known model not on "8.03" with a path always ends at the `TypeError` of line 132 |
| WorkflowOrchestratorFacts.Version803Question | workflow_orchestrator.py:128-142 | on "8.03" a 'j' resets without the "reset anyway?" question |
| WorkflowOrchestratorFacts.NoFirmwarePathNeedsConsent | workflow_orchestrator.py:116-120 | without a path, anything but 'j' ends the run with None |
| WorkflowOrchestratorFacts.ResetRoute | workflow_orchestrator.py:159-178 | a reset takes the UI route when logged in and "forgot password" otherwise, right after the mandatory steps; without a reset only the antenna check follows them |

## Left out

- `setup_browser` (browser_utils.py:10), `fenster_in_vordergrund_holen` and `dateipfad_auswählen` (utils.py:13-18), `_select_firmware_path_manually` (models.py:479-486): they start Chrome, focus a window or open a file dialog. The path chosen is a parameter.
- Sleeps, timeouts and `print`: waits are modelled as found or raised, as their oracle says.
- `_close_any_overlay` (fritzbox_api.py:459-481): its clicks are best effort and change no state the model follows.
- `set_language` and `ist_sprachauswahl` (fritzbox_api.py:896-939, models.py:127-142): only their result is modelled, as part of the language oracle.
- The click sequences of `firmware_update`, `factory_reset_from_ui`, `reset_via_forgot_password`, the DSL and checkbox dialogs, and the registration dialog (fritzbox_api.py:405-516, models.py:304-328): only whether each reports a dialog or succeeds is modelled.
- `check_login_state`, `reset_fritzbox` and `post_login_cleanup` (models.py:115-125, models.py:191, fritz_steps.py:41-124): an oracle says whether they raise.
- `wlan_antenne_check` of models.py and fritz_steps.py: only the signal reading and colour are modelled, not the clicks or the printing.
- The update branch of workflow_orchestrator.py:144-157: line 132 raises before it can be reached, and the model ends there.
- `need_reload` of the older login (models.py:168-169): the model follows `login` with `need_reload=False`. With True, a second `get_url` after the language page can raise and end `login`; the only caller passing True is `check_login_state` (models.py:121), which is itself an oracle here.
- The free functions `klicken`, `schreiben`, `sicher_warten` that fritz_steps.py imports from browser_utils.py (fritz_steps.py:6): browser_utils.py defines them only as `Browser` methods, so they do not exist. The model takes the free `klicken` to raise when its click fails, as the `try`/`except` blocks around every call in fritz_steps.py expect; the `Browser.klicken` methods of both browser_utils.py and models.py return False instead. Under that reading a failed click on `sys` ends `tim_factory_reset` early (`FritzSteps.FactoryResetEnd`, its `MenuFailed` end).
- `_handle_post_login_dialogs_round` (fritzbox_api.py:340-376): nothing calls it.
- `_check_if_login_required` and `is_main_menu_loaded_and_ready` (fritzbox_api.py:180-226): their results are part of the menu and login-form oracles of each sweep round.
- `perform_factory_reset_from_ui`, `dsl_setup_wizard` and `perform_firmware_update` (fritzbox_api.py:643-733, 852-894, 1055 on): click sequences, reduced to whether the step passes.
- `print_wlan_entry` (fritzbox_api.py:1037-1052): only the reading of the signal title and its colour are modelled.
- `skip_configuration` of fritzbox_api.py (496-516): it is one of the dialog handlers of the sweep, modelled by whether it reports a dialog.
- main.py: it asks for the firmware file, then in a loop for the password, calls `run_workflow` of utils.py (main.py:2, main.py:14) and asks whether to run again; that loop is console plumbing around `Utils.RunWorkflow`.
- The step functions called by utils.py and workflow.py: each call's effect is an oracle (raises, returns False, returns something else).
- WorkflowOrchestrator.Decide: its own contract says only that the console moves forward; what the answers decide is stated by `Version803Question`, `NoFirmwarePathNeedsConsent` and `KnownModelEndsAtTypeError`.
- WorkflowOrchestrator.Workflow: its own contract says only that the console moves forward; the order of the steps and the results are stated by the lemmas of `WorkflowOrchestratorFacts`.
- FritzboxApi.LanguageLog: its own contract bounds the calls to one; `NoKeysBeforeTyping` states that none of them types anything.
- Text.PyInt: digits are ASCII only and `_` separators are not read, so `int("1_0")` (10 in Python) and text with digits of other scripts read as no number; a signal title such as `1_0%` (models.py:291) has no level here where Python reads it as red. The same ASCII restriction applies to `\d` in `FritzboxText`.
- Text.AfterLast: equals `split(sep)[-1]` only for separators that cannot overlap themselves; the one separator the tool uses, `FRITZ!Box`, is such a separator.
- Text.LowerChar: Python's `lower()` covers all of Unicode; the model lower-cases A-Z and the Latin-1 capitals only, which covers every answer the tool compares (`w`, `ü`, `b`, `n`, `j`, `tim`).
- The `TypeError` of the `Browser` constructor for a driver that is not Chrome (browser_utils.py:24-25), and a `driver.quit()` that raises inside `Browser.quit` (browser_utils.py:125), which in the `finally` of `run_full_workflow` would replace its result: `BrowserUtils.Browser.constructor` takes a Chrome driver as given and `BrowserUtils.Browser.Quit` always succeeds.
- Quitting a driver that was already quit (utils.py:74 then 81): the model counts the calls and does not say what Selenium does the second time.

## Behaviour worth knowing

- workflow_orchestrator.py:132 asks whether the firmware table's entry, a `dict`, is `in` the version string (or in None). That raises `TypeError`, so every model in the table whose version is not "8.03" ends the run with None once a firmware path is given, and the update of lines 144-157 never runs (`WorkflowOrchestratorFacts.KnownModelEndsAtTypeError`).
- `_extract_model_number` reports a 6890 as `6890_LTE`, which is not a key of the firmware table, so that box always goes to the file dialog (`FritzboxText.LteModelsAskOperator`).
- A signal title `<70%` is red in models.py and fritz_steps.py and green in fritzbox_api.py (`Signal.ReadingsDisagreeOnLessThan`).
- fritz_steps.py:6 imports `klicken`, `schreiben` and `sicher_warten` from browser_utils.py, which defines them only as methods of `Browser`. As written that import raises `ImportError`, and so do the imports of fritz_steps.py in utils.py:1 and workflow.py:2, and of utils.py in main.py:2. The entry point main.py therefore stops before any step runs; the model describes the steps as they would run with working free functions.
- The older `login` gives up without raising when its third attempt finds neither the password field nor the language page (`LegacyLogin.GaveUpWithoutField`).
- The image names built by models.py drop the leading zero that the file names in fritzbox_api.py carry (`ModelsFacts.NamesDifferFromTable`).
