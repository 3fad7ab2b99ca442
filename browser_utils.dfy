/** The `Browser` wrapper around the Chrome WebDriver (browser_utils.py).
    The driver itself is an oracle: which elements are present, which clicks
    work and which navigations raise is given to each operation. What the model
    keeps is the wrapper's own state, whether it still holds a driver, and the
    driver calls it issued, in order. */
module BrowserUtils {
  import opened Common
  import opened Text
  import opened Environment

  /** Selenium's `By.XPATH`. */
  const ByXPath: string := "xpath"

  /** A `(By, value)` pair as Selenium takes it. */
  datatype Locator = Locator(strategy: string, value: string)

  /** What a caller may hand to `sicher_warten`: a bare XPath string or a pair. */
  datatype LocatorArg = XPathText(xpath: string) | Given(locator: Locator)

  /** A plain string is read as an XPath; a pair is used unchanged. */
  function Normalise(arg: LocatorArg): (r: Locator)
    ensures arg.XPathText? ==> r.strategy == ByXPath && r.value == arg.xpath
    ensures arg.Given? ==> r == arg.locator
  {
    match arg
    case XPathText(x) => Locator(ByXPath, x)
    case Given(l) => l
  }

  /** Normalising a locator that is already a pair changes nothing. */
  lemma NormaliseIdempotent(arg: LocatorArg)
    ensures Normalise(Given(Normalise(arg))) == Normalise(arg)
  {
  }

  /** The driver calls the wrapper makes and the model records. */
  datatype DriverCall = Get(url: string) | DeleteCookies | SendKeys(xpath: string, text: string) | QuitDriver

  /** The separator `reload` puts before its cache-busting parameter. */
  function BustSeparator(url: string): (r: char)
    ensures r == '&' <==> '?' in url
    ensures r == '?' || r == '&'
  {
    if '?' in url then '&' else '?'
  }

  /** The address `reload` loads with `cache_bust`: `url`, then `&` when the
      address already has a query and `?` otherwise, then `_=` and the time. */
  function CacheBusted(url: string, ts: nat): (r: string)
    ensures |r| > |url| + 2 && r[..|url|] == url
    ensures r[|url|] == BustSeparator(url) && r[|url| + 1..|url| + 3] == "_="
    ensures AllDigits(r[|url| + 3..])
  {
    url + [BustSeparator(url)] + "_=" + Decimal(ts)
  }

  /** The number of decimal digits at the end of `s`. */
  function TrailingDigits(s: string): (n: nat)
    ensures n <= |s| && AllDigits(s[|s| - n..])
    ensures n < |s| ==> !IsDigit(s[|s| - n - 1])
  {
    if s != [] && IsDigit(s[|s| - 1]) then
      var n := TrailingDigits(s[..|s| - 1]) + 1;
      assert s[|s| - n..] == s[..|s| - 1][|s| - n..] + [s[|s| - 1]];
      n
    else 0
  }

  /** Recovers the page address and the time from a cache-busted address. */
  function SplitCacheBust(s: string): (r: Option<(string, nat)>)
    ensures r.Some? ==> |r.value.0| + 3 < |s| + 1 && s[..|r.value.0|] == r.value.0
  {
    var n := TrailingDigits(s);
    var rest := s[..|s| - n];
    if n > 0 && |rest| >= 3 && rest[|rest| - 2..] == "_=" && (rest[|rest| - 3] == '?' || rest[|rest| - 3] == '&') then
      Some((rest[..|rest| - 3], DecimalValue(s[|s| - n..])))
    else None
  }

  /** Appending digits to text that ends in a non-digit: the digits are exactly
      the trailing run. */
  lemma {:induction false} TrailingDigitsAppended(prefix: string, digits: string)
    requires prefix != [] && !IsDigit(prefix[|prefix| - 1]) && AllDigits(digits)
    ensures TrailingDigits(prefix + digits) == |digits|
    decreases |digits|
  {
    var s := prefix + digits;
    if digits == [] {
      assert s == prefix;
    } else {
      assert s[..|s| - 1] == prefix + digits[..|digits| - 1];
      TrailingDigitsAppended(prefix, digits[..|digits| - 1]);
    }
  }

  /** The cache-busting parameter can be taken off again: the page address and
      the time are both recovered. */
  lemma CacheBustRoundTrip(url: string, ts: nat)
    ensures SplitCacheBust(CacheBusted(url, ts)) == Some((url, ts))
  {
    var d := Decimal(ts);
    var prefix := url + [BustSeparator(url)] + "_=";
    var s := prefix + d;
    assert CacheBusted(url, ts) == s;
    TrailingDigitsAppended(prefix, d);
    assert s[..|s| - |d|] == prefix;
    assert s[|s| - |d|..] == d;
    assert prefix[..|prefix| - 3] == url;
    DecimalRoundTrip(ts);
  }

  /** The calls `reload` issues to a live driver: deleting the cookies when
      asked, then loading the address, cache-busted when asked. */
  function ReloadCalls(url: string, ts: nat, cacheBust: bool, clearCookies: bool): (r: seq<DriverCall>)
    ensures |r| == (if clearCookies then 2 else 1)
    ensures r[|r| - 1] == Get(if cacheBust then CacheBusted(url, ts) else url)
  {
    (if clearCookies then [DeleteCookies] else []) + [Get(if cacheBust then CacheBusted(url, ts) else url)]
  }

  /** Busting an address that was busted before appends with `&`. */
  lemma SecondBustUsesAmpersand(url: string, t1: nat, t2: nat)
    ensures BustSeparator(CacheBusted(url, t1)) == '&'
  {
    var s := CacheBusted(url, t1);
    assert s[|url|] == '?' || s[|url|] == '&';
    if s[|url|] == '&' {
      assert '?' in url;
      assert url[..] == s[..|url|];
      var k :| 0 <= k < |url| && url[k] == '?';
      assert s[k] == '?';
    } else {
      assert s[|url|] == '?';
    }
  }

  class Browser {
    /** `self.driver is not None` (a truthy driver). */
    var live: bool
    /** The calls issued to the driver, oldest first. */
    var log: seq<DriverCall>

    /** `Browser(driver)` around a freshly started driver. */
    constructor()
      ensures live && log == []
    {
      live := true;
      log := [];
    }

    /** `sicher_warten`: the locator it waits for and whether the element showed
        up; `present` says which locators the page would satisfy in time.
        Without a driver every wait fails. */
    method SicherWarten(locator: LocatorArg, present: Locator -> bool) returns (found: bool, used: Locator)
      ensures used == Normalise(locator)
      ensures found <==> live && present(Normalise(locator))
    {
      used := Normalise(locator);
      found := live && present(used);
    }

    /** `klicken`: up to `versuche` attempts; the first attempt whose element is
        found and clicked (directly or by script) returns True. Returns the
        result and the number of attempts made. */
    method Klicken(xpath: string, attempts: nat -> ClickAttempt, versuche: nat := 3) returns (ok: bool, tries: nat)
      ensures ok <==> live && FirstClick(attempts, versuche).Some?
      ensures ok ==> tries == FirstClick(attempts, versuche).value + 1
      ensures !ok ==> tries == versuche
    {
      var i := 0;
      while i < versuche
        invariant i <= versuche
        invariant live ==> forall j: nat :: j < i ==> !Succeeds(attempts(j))
      {
        if live && Succeeds(attempts(i)) {
          FirstClickAt(attempts, versuche, i);
          return true, i + 1;
        }
        i := i + 1;
      }
      if live {
        NoClick(attempts, versuche);
      }
      return false, versuche;
    }

    /** `schreiben`: types `text` into the field; True when the field was found
        and the keys were sent. `None` as text makes `send_keys` raise, which
        the method turns into False like every other failure. */
    method Schreiben(xpath: string, text: Option<string>, found: bool) returns (ok: bool)
      modifies this
      ensures ok <==> old(live) && found && text.Some?
      ensures live == old(live)
      ensures log == old(log) + (if ok then [SendKeys(xpath, text.value)] else [])
    {
      ok := live && found && text.Some?;
      if ok {
        log := log + [SendKeys(xpath, text.value)];
      }
    }

    /** `get_url`: True when the navigation did not raise. Without a driver the
        call raises at once and nothing is issued. */
    method GetUrl(url: string, raises: bool) returns (ok: bool)
      modifies this
      ensures ok <==> old(live) && !raises
      ensures live == old(live)
      ensures log == old(log) + (if old(live) then [Get(url)] else [])
    {
      ok := live && !raises;
      if live {
        log := log + [Get(url)];
      }
    }

    /** `reload`: without a driver returns False and does nothing; otherwise
        deletes the cookies when asked (a failure there is ignored), loads the
        address, cache-busted with time `ts` when asked, and returns whether
        that load did not raise. */
    method Reload(url: string, ts: nat, getRaises: bool, cacheBust: bool := true, clearCookies: bool := true)
      returns (ok: bool)
      modifies this
      ensures !old(live) ==> !ok && log == old(log)
      ensures old(live) ==> ok == !getRaises
      ensures old(live) ==> log == old(log) + ReloadCalls(url, ts, cacheBust, clearCookies)
      ensures live == old(live)
    {
      if !live {
        return false;
      }
      if clearCookies {
        log := log + [DeleteCookies];
      }
      var final := url;
      if cacheBust {
        final := CacheBusted(url, ts);
      }
      log := log + [Get(final)];
      ok := !getRaises;
    }

    /** `quit`: with a driver, quits it, drops it and returns True; without one
        returns False. A second call therefore returns False. */
    method Quit() returns (ok: bool)
      modifies this
      ensures ok == old(live) && !live
      ensures log == old(log) + (if ok then [QuitDriver] else [])
    {
      ok := live;
      if live {
        log := log + [QuitDriver];
        live := false;
      }
    }
  }
}
