/** Signal strength of a scanned WLAN network, read from the `title` attribute
    of its RSSI cell (for example `"75%"` or `"<1%"`), and the three-colour
    rating the tool shows next to it.

    Two readings of the title exist in the tool. The older scripts
    (models.py, fritz_steps.py) drop every `%` and rate a title starting with
    `<` as strength 20. fritzbox_api.py drops every `%` and every `<` and reads
    the rest as a number. A title that is not a number makes `int()` raise; the
    caller then skips the entry (`None` here). */
module Signal {
  import opened Common
  import opened Text

  datatype Level = Red | Yellow | Green

  /** At most 30 is red, at most 60 yellow, anything stronger green. */
  function Classify(strength: int): (r: Level)
    ensures r == Red <==> strength <= 30
    ensures r == Green <==> strength > 60
  {
    if strength <= 30 then Red else if strength <= 60 then Yellow else Green
  }

  function Rank(l: Level): nat {
    match l
    case Red => 0
    case Yellow => 1
    case Green => 2
  }

  /** A stronger signal never gets a worse colour. */
  lemma ClassifyMonotone(a: int, b: int)
    requires a <= b
    ensures Rank(Classify(a)) <= Rank(Classify(b))
  {
  }

  /** `int(val or 0)`: the empty string reads as 0. */
  function IntOrZero(val: string): (r: Option<int>)
    ensures val == [] ==> r == Some(0)
    ensures val != [] ==> r == PyInt(val)
  {
    if val == [] then Some(0) else PyInt(val)
  }

  /** models.py and fritz_steps.py: `20 if val.startswith('<') else int(val or 0)`
      with `val` the title without `%`. */
  function StrengthLegacy(title: string): (r: Option<int>)
  {
    var val := Remove(title, '%');
    if val != [] && val[0] == '<' then Some(20) else IntOrZero(val)
  }

  /** fritzbox_api.py: `int(val or 0)` with `val` the title without `%` and `<`. */
  function StrengthApi(title: string): (r: Option<int>)
  {
    IntOrZero(Remove(Remove(title, '%'), '<'))
  }

  function LevelOf(strength: Option<int>): (r: Option<Level>)
    ensures r.Some? <==> strength.Some?
  {
    match strength
    case None => None
    case Some(s) => Some(Classify(s))
  }

  /** The older scripts rate every title that starts with `<` (after dropping
      `%`) as red, whatever number follows. */
  lemma LegacyLessThanIsRed(title: string)
    requires title != [] && title[0] == '<'
    ensures LevelOf(StrengthLegacy(title)) == Some(Red)
  {
    assert Remove(title, '%') == [title[0]] + Remove(title[1..], '%');
  }

  /** A title written the way the page writes a plain percentage, `"<n>%"`,
      reads back as `n` in both scripts. */
  lemma PercentTitleRoundTrip(n: nat)
    ensures StrengthLegacy(Decimal(n) + "%") == Some(n)
    ensures StrengthApi(Decimal(n) + "%") == Some(n)
  {
    var d := Decimal(n);
    RemoveAppend(d, "%", '%');
    RemoveAbsent(d, '%');
    assert Remove("%", '%') == [];
    assert Remove(d + "%", '%') == d;
    RemoveAbsent(d, '<');
    DecimalParses(n);
  }

  /** Without a `<` in the title both readings agree. */
  lemma ReadingsAgreeWithoutLessThan(title: string)
    requires '<' !in title
    ensures StrengthApi(title) == StrengthLegacy(title)
  {
    var val := Remove(title, '%');
    assert '<' !in val;
    RemoveAbsent(val, '<');
  }

  /** They disagree on a title such as `"<70%"`: the older scripts rate it red
      (20), fritzbox_api.py reads 70 and rates it green. */
  lemma ReadingsDisagreeOnLessThan()
    ensures LevelOf(StrengthLegacy("<70%")) == Some(Red)
    ensures LevelOf(StrengthApi("<70%")) == Some(Green)
  {
    LegacyLessThanIsRed("<70%");
    var seventy := Decimal(70);
    assert seventy == "70";
    assert "<70%" == "<" + seventy + "%";
    RemoveAppend("<" + seventy, "%", '%');
    RemoveAbsent("<" + seventy, '%');
    assert Remove("%", '%') == [];
    RemoveAppend("<", seventy, '<');
    RemoveAbsent(seventy, '<');
    assert Remove("<", '<') == [];
    assert Remove(Remove("<70%", '%'), '<') == seventy;
    DecimalParses(70);
  }
}
