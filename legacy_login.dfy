/** The three-attempt login of the older scripts, written twice in the source:
    `FritzBox.login` in models.py (lines 144-189) and the module function
    `login` in fritz_steps.py (lines 69-113). Both first scan for the box and
    raise when it cannot be reached; then each attempt

    - asks for a password on the console when it has none (`input().strip()`),
    - loads the box page, outside any `try`, so a load that raises ends
      `login` with that exception, and waits for the password field `uiPass`,
    - without that field asks `ist_sprachauswahl`, which scans for the box once
      more (raising when none answers) and looks for the language page; without
      the language page the attempt ends with `continue`, keeping its password,
    - types the password and waits for the menu; the clean-up after a login
      runs inside the same `try`, so when it raises the attempt counts as failed
      although models.py has already set `is_logged_in`,
    - after a failure forgets the password, so the next attempt asks again, and
      raises after the third failure.

    A third attempt that ends with `continue` leaves the loop, and `login`
    returns normally without a session. */
module LegacyLogin {
  import opened Common
  import opened Text
  import opened Environment

  const LoginAttempts: nat := 3

  /** How the credential block of one attempt ends: the password is refused
      (or the field, the button or the menu does not come), it is accepted and
      the clean-up returns, or it is accepted and the clean-up raises. */
  datatype Credentials = Rejected | Accepted | CleanupRaises

  /** One attempt as the box and the network answer it: whether loading the
      box page raises; whether `uiPass` appears; if not, the scan `ist_sprachauswahl` runs and whether the
      language page shows; then how the credential block ends. */
  datatype LoginAttempt = LoginAttempt(loadRaises: bool, passField: bool, rescan: Probe, languageShown: bool, credentials: Credentials)

  /** How `login` ends: it returns after a successful attempt; it returns
      after a third attempt that found neither field nor language page; it
      raises because the first scan found no box, because `input()` met the
      end of the input, because loading the box page raised, because the scan
      of the language check found no box, or because the third attempt failed. */
  datatype LoginEnd = LoggedIn | GaveUp | Unreachable | InputEnded | LoadRaised | LanguageCheckRaised | FailedThrice

  /** What `login` changes: the box address, the password of each attempt in
      order (models.py stores each one in `self.password`), `is_logged_in`, and
      the console position. */
  datatype LoginState = LoginState(url: string, passwords: seq<string>, loggedIn: bool, pos: nat)

  datatype LoginRun = LoginRun(end: LoginEnd, state: LoginState)

  /** `password` when given, `""` for None: both make an attempt ask. */
  function PasswordText(given: Option<string>): (r: string)
    ensures given.None? ==> r == []
    ensures given.Some? ==> r == given.value
  {
    if given.Some? then given.value else []
  }

  /** The value of `self.password` after the attempts: the last attempt's
      password, or what it was when no attempt got that far. */
  function Stored(before: Option<string>, passwords: seq<string>): (r: Option<string>)
    ensures passwords == [] ==> r == before
    ensures passwords != [] ==> r == Some(passwords[|passwords| - 1])
  {
    if passwords == [] then before else Some(passwords[|passwords| - 1])
  }

  /** Where one attempt leads: `login` ends, or the next attempt follows with
      the password carried over (`""` once it was forgotten). */
  datatype AttemptEnd = Ends(run: LoginRun) | Continues(password: string, state: LoginState)

  /** The state an attempt leaves behind, whichever way it goes on. */
  function StateAfter(a: AttemptEnd): LoginState
  {
    if a.Ends? then a.run.state else a.state
  }

  /** The password an attempt types: the one carried over, or when there is
      none the next console line without surrounding blanks. */
  function AttemptPassword(password: string, lines: seq<string>, pos: nat): string
    requires password != [] || pos < |lines|
  {
    if password == [] then Strip(lines[pos]) else password
  }

  /** One attempt, given what the box does in it and whether it is the last. */
  function OneAttempt(t: LoginAttempt, last: bool, password: string, lines: seq<string>, s: LoginState): (a: AttemptEnd)
    ensures password == [] && s.pos >= |lines| ==> a == Ends(LoginRun(InputEnded, s))
    ensures password != [] || s.pos < |lines| ==>
              StateAfter(a).passwords == s.passwords + [AttemptPassword(password, lines, s.pos)] &&
              StateAfter(a).pos == (if password == [] then s.pos + 1 else s.pos)
    ensures s.loggedIn ==> StateAfter(a).loggedIn
    ensures a.Ends? ==> a.run.end != Unreachable && a.run.end != GaveUp
    ensures a.Ends? && a.run.end == LoggedIn ==>
              t.credentials == Accepted && a.run.state.loggedIn && |a.run.state.passwords| == |s.passwords| + 1
    ensures a.Ends? && a.run.end == FailedThrice ==> last
    ensures password != [] || s.pos < |lines| ==> (t.loadRaises <==> a.Ends? && a.run.end == LoadRaised)
    ensures a.Ends? && a.run.end == LoadRaised ==> t.loadRaises && |a.run.state.passwords| == |s.passwords| + 1
    ensures a.Continues? ==> |a.state.passwords| == |s.passwords| + 1
    ensures a.Continues? && last ==> !t.passField && !t.languageShown
  {
    if password == [] && s.pos >= |lines| then Ends(LoginRun(InputEnded, s))
    else
      var pw := AttemptPassword(password, lines, s.pos);
      AfterPassword(t, last, pw, LoginState(s.url, s.passwords + [pw], s.loggedIn, if password == [] then s.pos + 1 else s.pos))
  }

  /** The rest of an attempt once its password `pw` is known and recorded in
      `s`: the field or the language page, then the credentials. */
  function AfterPassword(t: LoginAttempt, last: bool, pw: string, s: LoginState): (a: AttemptEnd)
    ensures StateAfter(a).passwords == s.passwords && StateAfter(a).pos == s.pos
    ensures s.loggedIn ==> StateAfter(a).loggedIn
    ensures a.Ends? ==> a.run.end != Unreachable && a.run.end != GaveUp && a.run.end != InputEnded
    ensures a.Ends? && a.run.end == LoggedIn ==> t.credentials == Accepted && a.run.state.loggedIn
    ensures a.Ends? && a.run.end == FailedThrice ==> last
    ensures t.loadRaises <==> a.Ends? && a.run.end == LoadRaised
    ensures a.Continues? && last ==> !t.passField && !t.languageShown
  {
    if t.loadRaises then Ends(LoginRun(LoadRaised, s))
    else if !t.passField && ScanUrl(t.rescan, DefaultScanRounds).None? then Ends(LoginRun(LanguageCheckRaised, s))
    else
      var s2 := if t.passField then s else s.(url := ScanUrl(t.rescan, DefaultScanRounds).value);
      if !t.passField && !t.languageShown then Continues(pw, s2)
      else if t.credentials == Accepted then Ends(LoginRun(LoggedIn, s2.(loggedIn := true)))
      else
        var s3 := s2.(loggedIn := s2.loggedIn || t.credentials == CleanupRaises);
        if last then Ends(LoginRun(FailedThrice, s3)) else Continues([], s3)
  }

  /** The attempts from attempt `|s.passwords|` on. */
  function AttemptsFrom(tries: nat -> LoginAttempt, password: string, lines: seq<string>, s: LoginState): (r: LoginRun)
    ensures s.passwords <= r.state.passwords
    ensures |s.passwords| <= LoginAttempts ==> |r.state.passwords| <= LoginAttempts
    ensures s.pos <= r.state.pos
    ensures s.loggedIn ==> r.state.loggedIn
    ensures r.end != Unreachable
    decreases LoginAttempts - |s.passwords|
  {
    var i := |s.passwords|;
    if i >= LoginAttempts then LoginRun(GaveUp, s)
    else
      var a := OneAttempt(tries(i), i + 1 == LoginAttempts, password, lines, s);
      if a.Ends? then a.run else AttemptsFrom(tries, a.password, lines, a.state)
  }

  /** `login(password)`: the scan first (its hit becomes the address), then the
      attempts. `s` is the state before the call, with no password yet. */
  function LoginSpec(probe: Probe, tries: nat -> LoginAttempt, password: string, lines: seq<string>, s: LoginState): (r: LoginRun)
    ensures ScanUrl(probe, DefaultScanRounds).None? <==> r.end == Unreachable
    ensures r.end == Unreachable ==> r.state == s
    ensures s.passwords == [] ==> |r.state.passwords| <= LoginAttempts
    ensures s.pos <= r.state.pos && (s.loggedIn ==> r.state.loggedIn)
  {
    if ScanUrl(probe, DefaultScanRounds).None? then LoginRun(Unreachable, s)
    else AttemptsFrom(tries, password, lines, s.(url := ScanUrl(probe, DefaultScanRounds).value))
  }

  /** At most three attempts run; the run raises "3x fehlgeschlagen" or gives
      up only after the third. */
  lemma {:induction false} AtMostThreeAttempts(tries: nat -> LoginAttempt, password: string, lines: seq<string>, s: LoginState)
    requires |s.passwords| <= LoginAttempts
    ensures var r := AttemptsFrom(tries, password, lines, s);
            |r.state.passwords| <= LoginAttempts &&
            (r.end == FailedThrice || r.end == GaveUp ==> |r.state.passwords| == LoginAttempts)
    decreases LoginAttempts - |s.passwords|
  {
    var i := |s.passwords|;
    if i < LoginAttempts {
      var a := OneAttempt(tries(i), i + 1 == LoginAttempts, password, lines, s);
      if a.Continues? {
        AtMostThreeAttempts(tries, a.password, lines, a.state);
      }
    }
  }

  /** A run that does not give up ends in one of its attempts: attempt `k`,
      started with password `pw` in state `sk`, is the one whose end is the
      run's end. */
  lemma {:induction false} EndingAttempt(tries: nat -> LoginAttempt, password: string, lines: seq<string>, s: LoginState)
    returns (k: nat, pw: string, sk: LoginState)
    ensures var r := AttemptsFrom(tries, password, lines, s);
            r.end != GaveUp ==>
              |s.passwords| <= k == |sk.passwords| < LoginAttempts &&
              OneAttempt(tries(k), k + 1 == LoginAttempts, pw, lines, sk) == Ends(r)
    decreases LoginAttempts - |s.passwords|
  {
    k, pw, sk := |s.passwords|, password, s;
    if k < LoginAttempts {
      var a := OneAttempt(tries(k), k + 1 == LoginAttempts, password, lines, s);
      if a.Continues? {
        k, pw, sk := EndingAttempt(tries, a.password, lines, a.state);
      }
    }
  }

  /** A login that succeeds does so in an attempt whose password was accepted,
      and it sets `is_logged_in`; models.py then holds that attempt's password. */
  lemma SuccessMeansAccepted(tries: nat -> LoginAttempt, password: string, lines: seq<string>, s: LoginState)
    ensures var r := AttemptsFrom(tries, password, lines, s);
            r.end == LoggedIn ==>
              r.state.loggedIn && |s.passwords| < |r.state.passwords| &&
              tries(|r.state.passwords| - 1).credentials == Accepted
  {
    var k, pw, sk := EndingAttempt(tries, password, lines, s);
  }

  /** A page load that raises ends `login` in the attempt it happens in,
      whichever attempt that is: the run ends with `LoadRaised` only when the
      load of its last attempt raised, and that attempt recorded its
      password. */
  lemma LoadFailureEndsRun(tries: nat -> LoginAttempt, password: string, lines: seq<string>, s: LoginState)
    ensures var r := AttemptsFrom(tries, password, lines, s);
            r.end == LoadRaised ==> |s.passwords| < |r.state.passwords| && tries(|r.state.passwords| - 1).loadRaises
  {
    var k, pw, sk := EndingAttempt(tries, password, lines, s);
  }

  /** With a password given, a first page load that raises ends the run at
      once: one password recorded, nothing read from the console. */
  lemma FirstLoadRaises(tries: nat -> LoginAttempt, password: string, lines: seq<string>, s: LoginState)
    requires s.passwords == [] && password != [] && tries(0).loadRaises
    ensures AttemptsFrom(tries, password, lines, s) ==
              LoginRun(LoadRaised, LoginState(s.url, [password], s.loggedIn, s.pos))
  {
    assert OneAttempt(tries(0), false, password, lines, s) ==
             Ends(LoginRun(LoadRaised, LoginState(s.url, [password], s.loggedIn, s.pos)));
  }

  /** The run gives up only when its third attempt found neither the password
      field nor the language page. */
  lemma {:induction false} GaveUpWithoutField(tries: nat -> LoginAttempt, password: string, lines: seq<string>, s: LoginState)
    requires |s.passwords| < LoginAttempts
    ensures AttemptsFrom(tries, password, lines, s).end == GaveUp ==>
              !tries(LoginAttempts - 1).passField && !tries(LoginAttempts - 1).languageShown
    decreases LoginAttempts - |s.passwords|
  {
    var i := |s.passwords|;
    var a := OneAttempt(tries(i), i + 1 == LoginAttempts, password, lines, s);
    if a.Continues? && i + 1 < LoginAttempts {
      GaveUpWithoutField(tries, a.password, lines, a.state);
    }
  }

  /** A refused password is forgotten: with a password given, a first attempt
      that is refused makes the second attempt use the next console line. */
  lemma RefusalPromptsAgain(tries: nat -> LoginAttempt, password: string, lines: seq<string>, s: LoginState)
    requires s.passwords == [] && password != [] && s.pos < |lines|
    requires !tries(0).loadRaises && tries(0).passField && tries(0).credentials == Rejected
    ensures var r := AttemptsFrom(tries, password, lines, s);
            |r.state.passwords| >= 2 && r.state.passwords[0] == password &&
            r.state.passwords[1] == Strip(lines[s.pos]) && r.state.pos > s.pos
  {
    var s1 := LoginState(s.url, [password], s.loggedIn, s.pos);
    assert OneAttempt(tries(0), false, password, lines, s) == Continues([], s1);
    var a1 := OneAttempt(tries(1), false, [], lines, s1);
    assert StateAfter(a1).passwords == [password, Strip(lines[s.pos])];
  }

  /** Three refusals in a row end in the "3x fehlgeschlagen" exception after
      exactly three attempts: the given password, then two console lines. */
  lemma ThreeRefusalsRaise(tries: nat -> LoginAttempt, password: string, lines: seq<string>, s: LoginState)
    requires s.passwords == [] && password != [] && s.pos + 2 <= |lines|
    requires forall i: nat :: i < LoginAttempts ==> !tries(i).loadRaises && tries(i).passField && tries(i).credentials == Rejected
    ensures AttemptsFrom(tries, password, lines, s) ==
              LoginRun(FailedThrice, LoginState(s.url, [password, Strip(lines[s.pos]), Strip(lines[s.pos + 1])], s.loggedIn, s.pos + 2))
  {
    assert !tries(0).loadRaises && tries(0).passField && tries(0).credentials == Rejected;
    assert !tries(1).loadRaises && tries(1).passField && tries(1).credentials == Rejected;
    assert !tries(2).loadRaises && tries(2).passField && tries(2).credentials == Rejected;
    var s1 := LoginState(s.url, [password], s.loggedIn, s.pos);
    var s2 := LoginState(s.url, [password, Strip(lines[s.pos])], s.loggedIn, s.pos + 1);
    var s3 := LoginState(s.url, [password, Strip(lines[s.pos]), Strip(lines[s.pos + 1])], s.loggedIn, s.pos + 2);
    assert OneAttempt(tries(0), false, password, lines, s) == Continues([], s1);
    assert OneAttempt(tries(1), false, [], lines, s1) == Continues([], s2);
    assert OneAttempt(tries(2), true, [], lines, s2) == Ends(LoginRun(FailedThrice, s3));
    assert AttemptsFrom(tries, [], lines, s2) == LoginRun(FailedThrice, s3);
    assert AttemptsFrom(tries, [], lines, s1) == AttemptsFrom(tries, [], lines, s2);
  }

  /** models.py sets `is_logged_in` before the clean-up: when the clean-up of the
      first attempt raises, the flag stays set however the login ends. */
  lemma CleanupFailureKeepsFlag(tries: nat -> LoginAttempt, password: string, lines: seq<string>, s: LoginState)
    requires s.passwords == [] && password != []
    requires !tries(0).loadRaises && tries(0).passField && tries(0).credentials == CleanupRaises
    ensures AttemptsFrom(tries, password, lines, s).state.loggedIn
  {
    assert OneAttempt(tries(0), false, password, lines, s) == Continues([], LoginState(s.url, [password], true, s.pos));
  }
}
