/** What models.py promises about reading the model name and about choosing
    between a firmware update and a factory reset. */
module ModelsFacts {
  import opened Common
  import opened Text
  import opened FirmwareManager
  import opened Models

  /** Text containing an infix of it contains what the infix contains. */
  lemma ContainsThroughInfix(s: string, a: string, b: string)
    requires Contains(s, a) && Contains(a, b)
    ensures Contains(s, b)
  {
    var i :| 0 <= i <= |s| && OccursAt(s, a, i);
    var j :| 0 <= j <= |a| && OccursAt(a, b, j);
    forall k | 0 <= k < |b|
      ensures s[i + j + k] == b[k]
    {
      assert s[i..i + |a|][j + k] == a[j + k];
      assert a[j..j + |b|][k] == b[k];
    }
    assert s[i + j..i + j + |b|] == b;
    assert OccursAt(s, b, i + j);
  }

  /** The model read from a title never contains the label again: it is the
      part after the last `FRITZ!Box`. */
  lemma ModelHasNoLabel(text: string)
    requires BoxModelFromText(text).Some?
    ensures !Contains(BoxModelFromText(text).value, ModelLabel)
  {
    var rest := AfterLast(Strip(text), ModelLabel);
    AfterLastHasNoSeparator(Strip(text), ModelLabel);
    StripIsInfix(rest);
    if Contains(Strip(rest), ModelLabel) {
      ContainsThroughInfix(rest, Strip(rest), ModelLabel);
    }
  }

  /** A label followed by a non-empty name without `!` does not end in the
      label: its `!` would have to sit in the last four characters. */
  lemma LabelNotAtEnd(pre: string, m: string)
    requires m != [] && '!' !in m
    ensures var s := pre + ModelLabel + m; s[|s| - |ModelLabel|..] != ModelLabel
  {
    var s := pre + ModelLabel + m;
    var k := |s| - 4;
    if |m| >= 4 {
      assert s[k] == m[|m| - 4];
    } else {
      assert s[k] == ModelLabel[5 + |m|];
    }
    assert s[|s| - |ModelLabel|..][5] == s[k];
  }

  /** The text after a label followed by a name without `!` is that name: no
      later occurrence of the label can start inside it. */
  lemma {:induction false} AfterLastLabelled(pre: string, m: string)
    requires '!' !in m
    ensures AfterLast(pre + ModelLabel + m, ModelLabel) == m
    decreases |m|
  {
    if m == [] {
      var s := pre + ModelLabel;
      assert s[|s| - |ModelLabel|..] == ModelLabel;
      assert pre + ModelLabel + m == s;
    } else {
      var shorter := m[..|m| - 1];
      var t := pre + ModelLabel + shorter;
      var c := m[|m| - 1];
      assert shorter + [c] == m;
      assert pre + ModelLabel + m == t + [c];
      LabelNotAtEnd(pre, m);
      AfterLastAppend(t, c, ModelLabel);
      AfterLastLabelled(pre, shorter);
    }
  }

  /** A character after which the text does not end in the separator is kept
      after the last separator. */
  lemma AfterLastAppend(t: string, c: char, sep: string)
    requires sep != [] && |t| + 1 >= |sep|
    requires (t + [c])[|t| + 1 - |sep|..] != sep
    ensures AfterLast(t + [c], sep) == AfterLast(t, sep) + [c]
  {
    var s := t + [c];
    assert s[..|s| - 1] == t;
  }

  /** A title `FRITZ!Box <model>` yields the model, for a model name without
      `!` and without blanks at its ends. */
  lemma ModelRoundTrip(m: string)
    requires m != [] && !IsSpace(m[0]) && !IsSpace(m[|m| - 1]) && '!' !in m
    ensures BoxModelFromText(ModelLabel + " " + m) == Some(m)
  {
    var rest := " " + m;
    var text := ModelLabel + rest;
    assert ModelLabel + " " + m == text;
    TitleIsStripped(rest, m);
    assert text[..|ModelLabel|] == ModelLabel;
    assert OccursAt(text, ModelLabel, 0);
    assert [] + ModelLabel + rest == text;
    assert Contains(text, ModelLabel);
    AfterLastLabelled([], rest);
    assert AfterLast(text, ModelLabel) == rest;
    StripAfterBlank(m);
    assert BoxModelFromText(text) == Some(Strip(AfterLast(text, ModelLabel)));
  }

  lemma TitleIsStripped(rest: string, m: string)
    requires m != [] && !IsSpace(m[|m| - 1]) && rest == " " + m
    ensures Strip(ModelLabel + rest) == ModelLabel + rest
  {
    var text := ModelLabel + rest;
    assert text[0] == 'F';
    assert text[|text| - 1] == m[|m| - 1];
    StripNoSpaceEnds(text);
  }

  lemma StripAfterBlank(m: string)
    requires m != [] && !IsSpace(m[0]) && !IsSpace(m[|m| - 1])
    ensures Strip(" " + m) == m
  {
    assert (" " + m)[1..] == m;
    assert LStrip(" " + m) == LStrip(m);
    StripNoSpaceEnds(m);
    assert LStrip(m) == m;
  }

  /** No decision is taken exactly when no image was found and the dialog was
      cancelled. */
  lemma NoFileWithoutImage(boxModel: Option<string>, current: Option<string>, dir: string, isFile: string -> bool, chosen: string)
    ensures Choose(boxModel, current, dir, isFile, chosen) == NoFile <==>
              AutoImage(boxModel, dir, isFile) == [] && chosen == []
  {
  }

  /** A model already at its target version is never updated. */
  lemma AtTargetNotUpdated(boxModel: Option<string>, dir: string, isFile: string -> bool, chosen: string)
    requires KnownTarget(boxModel)
    ensures !Choose(boxModel, Some(Targets[boxModel.value]), dir, isFile, chosen).Update?
  {
  }

  /** An update of a known model uses the shipped image whenever it exists,
      whatever the dialog would have returned. */
  lemma UpdateUsesShippedImage(boxModel: Option<string>, current: Option<string>, dir: string, isFile: string -> bool, chosen: string)
    requires KnownTarget(boxModel) && isFile(ImagePath(dir, boxModel.value, Targets[boxModel.value]))
    requires current != Some(Targets[boxModel.value])
    ensures Choose(boxModel, current, dir, isFile, chosen) == Update(ImagePath(dir, boxModel.value, Targets[boxModel.value]))
  {
  }

  /** A model the table does not know is never updated; it is reset exactly
      when a file was chosen and it runs "8.03". */
  lemma UnknownModelNeverUpdated(boxModel: Option<string>, current: Option<string>, dir: string, isFile: string -> bool, chosen: string)
    requires !KnownTarget(boxModel)
    ensures !Choose(boxModel, current, dir, isFile, chosen).Update?
    ensures Choose(boxModel, current, dir, isFile, chosen) == Reset <==> chosen != [] && current == Some("8.03")
  {
  }

  /** A 7590 on "8.03" is at its target, so with a file it is reset; a 7530 on
      "8.03" is not at its target "8.02", so it is updated, to an older
      version. */
  lemma TargetDecidesAt803(dir: string, isFile: string -> bool, chosen: string)
    requires chosen != []
    ensures Choose(Some("7590"), Some("8.03"), dir, isFile, chosen) == Reset
    ensures Choose(Some("7530"), Some("8.03"), dir, isFile, chosen).Update?
  {
    assert KnownTarget(Some("7590")) && Targets["7590"] == "8.03";
    assert KnownTarget(Some("7530")) && Targets["7530"] == "8.02";
  }

  /** The image names built here drop the leading zero of the version, so they
      never name the files of the firmware table of fritzbox_api.py. */
  lemma NamesDifferFromTable()
    ensures ImageName("7590", Targets["7590"]) != Table["7590"]["final_file"]
    ensures ImageName("7530", Targets["7530"]) != Table["7530"]["final_file"]
    ensures ImageName("6890_LTE", Targets["6890_LTE"]) != Table["6890"]["final_file"]
  {
    assert |Table["7590"]["final_file"]| == 26;
    assert |Table["7530"]["final_file"]| == 26;
    assert |Table["6890"]["final_file"]| == 30;
  }
}
