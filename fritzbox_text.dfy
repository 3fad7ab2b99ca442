/** The text decisions inside `FritzBox` (fritzbox_api.py) that need no
    browser: reading the model number out of an element's text, and reading
    `major.minor` out of the FRITZ!OS version to decide whether the expert view
    has to be checked. Both use `re.search`, whose leftmost-match rule is
    written out here: the match starts at the first index where the pattern
    can match, and at that index the quantifiers are greedy. Here `\d` is an
    ASCII digit; Python's `re` on a `str` also matches the decimal digits of
    other scripts. */
module FritzboxText {
  import opened Common
  import opened Text
  import FirmwareManager

  predicate DigitAt(s: string, i: int) {
    0 <= i < |s| && IsDigit(s[i])
  }

  // ----- the model number: re.search(r'(\d{4,})', text) -----

  /** `\d{4,}` can match at `i`. */
  predicate FourDigitsAt(s: string, i: nat) {
    DigitAt(s, i) && DigitAt(s, i + 1) && DigitAt(s, i + 2) && DigitAt(s, i + 3)
  }

  /** The length of the run of digits starting at `i` (greedy `\d+`). */
  function DigitRun(s: string, i: nat): (n: nat)
    requires i <= |s|
    ensures i + n <= |s|
    ensures i + n < |s| ==> !IsDigit(s[i + n])
    decreases |s| - i
  {
    if i < |s| && IsDigit(s[i]) then 1 + DigitRun(s, i + 1) else 0
  }

  lemma {:induction false} DigitRunAllDigits(s: string, i: nat)
    requires i <= |s|
    ensures forall k :: i <= k < i + DigitRun(s, i) ==> IsDigit(s[k])
    decreases |s| - i
  {
    if i < |s| && IsDigit(s[i]) {
      DigitRunAllDigits(s, i + 1);
    }
  }

  lemma FourDigitsRun(s: string, i: nat)
    requires FourDigitsAt(s, i)
    ensures DigitRun(s, i) >= 4
  {
    assert DigitRun(s, i + 3) >= 1;
  }

  /** Where the leftmost match of `\d{4,}` starts. */
  function LongNumberStart(t: string): (r: Option<nat>)
    ensures r.Some? ==> r.value < |t| && FourDigitsAt(t, r.value)
    ensures r.Some? ==> forall j: nat :: j < r.value ==> !FourDigitsAt(t, j)
    ensures r.None? ==> forall j: nat :: j < |t| ==> !FourDigitsAt(t, j)
  {
    var at := (i: nat) => FourDigitsAt(t, i);
    assert forall i: nat :: at(i) == FourDigitsAt(t, i);
    FirstHitFirst(at, |t|);
    FirstHit(at, |t|)
  }

  /** `match.group(1)` of `re.search(r'(\d{4,})', t)`. */
  function FirstLongNumber(t: string): (r: Option<string>)
    ensures r.Some? <==> LongNumberStart(t).Some?
    ensures r.Some? ==> |r.value| >= 4 && AllDigits(r.value)
  {
    match LongNumberStart(t)
    case None => None
    case Some(i) =>
      FourDigitsRun(t, i);
      DigitRunAllDigits(t, i);
      var n := t[i..i + DigitRun(t, i)];
      assert forall k :: 0 <= k < |n| ==> n[k] == t[i + k];
      Some(n)
  }

  /** The model read from stripped element text: the first number of at least
      four digits, with `_LTE` appended when it is 6890 or the text mentions
      LTE. */
  function ModelFromContent(t: string): (r: Option<string>)
    ensures r.Some? <==> FirstLongNumber(t).Some?
  {
    match FirstLongNumber(t)
    case None => None
    case Some(d) =>
      if DecimalValue(d) == 6890 || Contains(t, "LTE") then Some(d + "_LTE") else Some(d)
  }

  /** `_extract_model_number`: `textContent` may be missing (`None`), which
      makes `.strip()` raise; the method then returns None. */
  function ExtractModelNumber(textContent: Option<string>): (r: Option<string>)
    ensures textContent.None? ==> r.None?
    ensures textContent.Some? ==> r == ModelFromContent(Strip(textContent.value))
  {
    match textContent
    case None => None
    case Some(text) => ModelFromContent(Strip(text))
  }

  lemma {:induction false} DigitRunOf(prefix: string, digits: string, suffix: string)
    requires AllDigits(digits) && (suffix == [] || !IsDigit(suffix[0]))
    ensures DigitRun(prefix + digits + suffix, |prefix|) == |digits|
    decreases |digits|
  {
    var s := prefix + digits + suffix;
    if digits == [] {
      assert |prefix| < |s| ==> s[|prefix|] == suffix[0];
    } else {
      assert s == (prefix + [digits[0]]) + digits[1..] + suffix;
      DigitRunOf(prefix + [digits[0]], digits[1..], suffix);
    }
  }

  /** Text made of a label without digits, a number of at least four digits
      and anything that does not continue the number: the number is what the
      search finds. */
  lemma LabelledNumber(prefix: string, digits: string, suffix: string)
    requires forall i :: 0 <= i < |prefix| ==> !IsDigit(prefix[i])
    requires |digits| >= 4 && AllDigits(digits) && (suffix == [] || !IsDigit(suffix[0]))
    ensures FirstLongNumber(prefix + digits + suffix) == Some(digits)
  {
    var s := prefix + digits + suffix;
    var at := (i: nat) => FourDigitsAt(s, i);
    assert forall i: nat :: at(i) == FourDigitsAt(s, i);
    forall j: nat | j < |prefix|
      ensures !at(j)
    {
      assert s[j] == prefix[j];
    }
    assert at(|prefix|) by {
      assert forall k :: 0 <= k < 4 ==> s[|prefix| + k] == digits[k];
    }
    FirstHitIs(at, |s|, |prefix|);
    DigitRunOf(prefix, digits, suffix);
    assert s[|prefix|..|prefix| + |digits|] == digits;
  }

  /** The model found in such a text, with the LTE rule. */
  lemma LabelledModel(prefix: string, digits: string, suffix: string)
    requires forall i :: 0 <= i < |prefix| ==> !IsDigit(prefix[i])
    requires |digits| >= 4 && AllDigits(digits) && (suffix == [] || !IsDigit(suffix[0]))
    ensures DecimalValue(digits) == 6890 ==> ModelFromContent(prefix + digits + suffix) == Some(digits + "_LTE")
    ensures Contains(prefix + digits + suffix, "LTE") ==> ModelFromContent(prefix + digits + suffix) == Some(digits + "_LTE")
    ensures DecimalValue(digits) != 6890 && !Contains(prefix + digits + suffix, "LTE") ==>
              ModelFromContent(prefix + digits + suffix) == Some(digits)
  {
    LabelledNumber(prefix, digits, suffix);
  }

  /** A 6890 is never reported as the bare number, whatever the text. */
  lemma Model6890AlwaysLte(t: string)
    requires FirstLongNumber(t).Some? && DecimalValue(FirstLongNumber(t).value) == 6890
    ensures ModelFromContent(t) == Some(FirstLongNumber(t).value + "_LTE")
  {
  }

  /** Models read with the LTE suffix are not keys of the firmware table, so
      their images are always chosen through the file dialog; in particular
      the table's own "6890" entry is never used for a 6890 found this way. */
  lemma LteModelsAskOperator(t: string, versionType: string, dir: string, isFile: string -> bool)
    requires ModelFromContent(t).Some?
    requires DecimalValue(FirstLongNumber(t).value) == 6890 || Contains(t, "LTE")
    ensures FirmwareManager.GetFirmwarePath(ModelFromContent(t).value, versionType, dir, isFile) == FirmwareManager.AskOperator
  {
    FirmwareManager.SuffixedModelAsksOperator(ModelFromContent(t).value, versionType, dir, isFile);
  }

  // ----- the version: re.search(r'(\d{1,2})\.(\d{2})', os_version) -----

  /** The pattern matches at `i` taking two digits for the major number. */
  predicate TwoDigitMajorAt(s: string, i: nat) {
    DigitAt(s, i) && DigitAt(s, i + 1) && i + 2 < |s| && s[i + 2] == '.' && DigitAt(s, i + 3) && DigitAt(s, i + 4)
  }

  /** The pattern matches at `i` taking one digit for the major number (what
      `\d{1,2}` falls back to when two digits do not lead to a match). */
  predicate OneDigitMajorAt(s: string, i: nat) {
    DigitAt(s, i) && i + 1 < |s| && s[i + 1] == '.' && DigitAt(s, i + 2) && DigitAt(s, i + 3)
  }

  predicate VersionAt(s: string, i: nat) {
    TwoDigitMajorAt(s, i) || OneDigitMajorAt(s, i)
  }

  /** `(int(group(1)), int(group(2)))` for the match at `i`. */
  function VersionGroups(s: string, i: nat): (r: (nat, nat))
    requires VersionAt(s, i)
    ensures r.0 < 100 && r.1 < 100
  {
    if TwoDigitMajorAt(s, i) then
      (10 * DigitValue(s[i]) + DigitValue(s[i + 1]), 10 * DigitValue(s[i + 3]) + DigitValue(s[i + 4]))
    else
      (DigitValue(s[i]), 10 * DigitValue(s[i + 2]) + DigitValue(s[i + 3]))
  }

  /** Where the leftmost version match starts. */
  function VersionStart(s: string): (r: Option<nat>)
    ensures r.Some? ==> r.value < |s| && VersionAt(s, r.value)
    ensures r.Some? ==> forall j: nat :: j < r.value ==> !VersionAt(s, j)
    ensures r.None? ==> forall j: nat :: j < |s| ==> !VersionAt(s, j)
  {
    var at := (i: nat) => VersionAt(s, i);
    assert forall i: nat :: at(i) == VersionAt(s, i);
    FirstHitFirst(at, |s|);
    FirstHit(at, |s|)
  }

  /** `(major, minor)` of the leftmost match, or `None` when there is none. */
  function ParseVersion(s: string): (r: Option<(nat, nat)>)
    ensures r.Some? <==> VersionStart(s).Some?
  {
    match VersionStart(s)
    case None => None
    case Some(i) => Some(VersionGroups(s, i))
  }

  /** `re.search(r'(\d{2}\.\d{2})', s).group(1)`, the fallback reading of
      `get_firmware_version`: the leftmost `MM.mm` in the text. */
  function FallbackVersion(s: string): (r: Option<string>)
    ensures r.Some? ==> |r.value| == 5 && r.value[2] == '.'
  {
    var at := (i: nat) => TwoDigitMajorAt(s, i);
    match FirstHit(at, |s|)
    case None => None
    case Some(i) => Some(s[i..i + 5])
  }

  /** What `activate_expert_mode_if_needed` does once logged in. */
  datatype ExpertStep = NoCheckNeeded | CheckInUi

  /** Below FRITZ!OS 7.15 the expert view may be off. */
  predicate OlderThan715(major: nat, minor: nat) {
    major < 7 || (major == 7 && minor < 15)
  }

  /** No version (`None` or empty) or no `major.minor` in it: nothing to check
      (the method returns True); otherwise check the UI exactly when the
      version is older than 7.15. */
  function ExpertDecision(osVersion: Option<string>): (r: ExpertStep)
    ensures osVersion.None? || osVersion.value == [] ==> r == NoCheckNeeded
    ensures osVersion.Some? && ParseVersion(osVersion.value).None? ==> r == NoCheckNeeded
    ensures r == CheckInUi <==> (osVersion.Some? && ParseVersion(osVersion.value).Some? &&
                                 OlderThan715(ParseVersion(osVersion.value).value.0, ParseVersion(osVersion.value).value.1))
  {
    if osVersion.None? || osVersion.value == [] then NoCheckNeeded
    else match ParseVersion(osVersion.value)
      case None => NoCheckNeeded
      case Some(v) => if OlderThan715(v.0, v.1) then CheckInUi else NoCheckNeeded
  }

  /** The ASCII digit for `d < 10`. */
  function Digit(d: nat): (c: char)
    requires d < 10
    ensures IsDigit(c) && DigitValue(c) == d
  {
    ('0' as int + d) as char
  }

  /** A number below 100 written with two digits, as FRITZ!OS writes its
      version numbers (`07.14`). */
  function TwoDigits(n: nat): (r: string)
    requires n < 100
    ensures |r| == 2 && IsDigit(r[0]) && IsDigit(r[1])
  {
    [Digit(n / 10), Digit(n % 10)]
  }

  /** A version written `MM.mm` after a label without digits reads back as
      `(MM, mm)`, whatever follows. */
  lemma VersionRoundTrip(tag: string, major: nat, minor: nat, rest: string)
    requires forall i :: 0 <= i < |tag| ==> !IsDigit(tag[i])
    requires major < 100 && minor < 100
    ensures ParseVersion(tag + TwoDigits(major) + "." + TwoDigits(minor) + rest) == Some((major, minor))
  {
    var s := tag + TwoDigits(major) + "." + TwoDigits(minor) + rest;
    var n := |tag|;
    assert s[n] == Digit(major / 10) && s[n + 1] == Digit(major % 10) && s[n + 2] == '.';
    assert s[n + 3] == Digit(minor / 10) && s[n + 4] == Digit(minor % 10);
    assert TwoDigitMajorAt(s, n);
    var at := (i: nat) => VersionAt(s, i);
    assert forall i: nat :: at(i) == VersionAt(s, i);
    forall j: nat | j < n
      ensures !at(j)
    {
      assert s[j] == tag[j];
    }
    FirstHitIs(at, |s|, n);
  }

  /** The same with a one-digit major number (`7.14`). */
  lemma ShortVersionRoundTrip(tag: string, major: nat, minor: nat, rest: string)
    requires forall i :: 0 <= i < |tag| ==> !IsDigit(tag[i])
    requires major < 10 && minor < 100
    ensures ParseVersion(tag + [Digit(major)] + "." + TwoDigits(minor) + rest) == Some((major, minor))
  {
    var s := tag + [Digit(major)] + "." + TwoDigits(minor) + rest;
    var n := |tag|;
    assert s[n] == Digit(major) && s[n + 1] == '.';
    assert s[n + 2] == Digit(minor / 10) && s[n + 3] == Digit(minor % 10);
    assert !TwoDigitMajorAt(s, n) && OneDigitMajorAt(s, n);
    var at := (i: nat) => VersionAt(s, i);
    assert forall i: nat :: at(i) == VersionAt(s, i);
    forall j: nat | j < n
      ensures !at(j)
    {
      assert s[j] == tag[j];
    }
    FirstHitIs(at, |s|, n);
  }

  /** The fallback reading finds a version written `MM.mm` after a label
      without digits (`"FRITZ!OS: 07.29"`), and the version it finds parses
      back to the same numbers. */
  lemma FallbackVersionFound(tag: string, major: nat, minor: nat, rest: string)
    requires forall i :: 0 <= i < |tag| ==> !IsDigit(tag[i])
    requires major < 100 && minor < 100
    ensures FallbackVersion(tag + TwoDigits(major) + "." + TwoDigits(minor) + rest)
            == Some(TwoDigits(major) + "." + TwoDigits(minor))
    ensures ParseVersion(TwoDigits(major) + "." + TwoDigits(minor)) == Some((major, minor))
  {
    var v := TwoDigits(major) + "." + TwoDigits(minor);
    var s := tag + v + rest;
    assert s == tag + TwoDigits(major) + "." + TwoDigits(minor) + rest;
    var n := |tag|;
    assert s[n..n + 5] == v;
    assert TwoDigitMajorAt(s, n);
    var at := (i: nat) => TwoDigitMajorAt(s, i);
    forall j: nat | j < n
      ensures !at(j)
    {
      assert s[j] == tag[j];
    }
    FirstHitIs(at, |s|, n);
    VersionRoundTrip([], major, minor, []);
    assert [] + TwoDigits(major) + "." + TwoDigits(minor) + [] == v;
  }

  /** For a version shown as `MM.mm`, the UI is checked exactly below 7.15. */
  lemma ExpertCheckBelow715(tag: string, major: nat, minor: nat, rest: string)
    requires forall i :: 0 <= i < |tag| ==> !IsDigit(tag[i])
    requires major < 100 && minor < 100
    ensures (ExpertDecision(Some(tag + TwoDigits(major) + "." + TwoDigits(minor) + rest)) == CheckInUi)
            <==> (major < 7 || (major == 7 && minor < 15))
  {
    VersionRoundTrip(tag, major, minor, rest);
  }
}
