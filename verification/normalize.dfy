/**
 * Free-text to enumeration normalisation performed by the update handler
 * (project/update_qr_code_settings_service.py). Neither mapping can fail:
 * an unrecognised format becomes PNG and an unrecognised level becomes HIGH.
 */
module Normalize {
  import opened Ascii
  import opened Enums

  /** Format: "SVG" in any letter case selects SVG; every other string selects PNG. */
  function ParseFormat(s: string): (f: QRFormat)
    ensures f == SVG <==> EqualIgnoringCase(s, "SVG")
  {
    EqualIgnoringCaseUpperWord(s, "SVG");
    if ToUpper(s) == "SVG" then SVG else PNG
  }

  /** The lookup table the handler consults with the upper-cased input. */
  const LevelTable: map<string, ErrorLevel> :=
    map["LOW" := LOW, "MEDIUM" := MEDIUM, "QUARTILE" := QUARTILE, "HIGH" := HIGH]

  /** The table holds exactly one entry per level, under that level's name. */
  lemma LevelTableIsNames()
    ensures forall l: ErrorLevel :: LevelName(l) in LevelTable && LevelTable[LevelName(l)] == l
    ensures forall k :: k in LevelTable ==> exists l: ErrorLevel :: LevelName(l) == k
  {
    assert LevelTable.Keys == {LevelName(LOW), LevelName(MEDIUM), LevelName(QUARTILE), LevelName(HIGH)};
  }

  /**
   * Error level: an input naming a level in any letter case selects that
   * level; an input that names no level falls back to HIGH.
   */
  function ParseErrorLevel(s: string): (e: ErrorLevel)
    ensures forall l: ErrorLevel :: EqualIgnoringCase(s, LevelName(l)) ==> e == l
    ensures (forall l: ErrorLevel :: !EqualIgnoringCase(s, LevelName(l))) ==> e == HIGH
  {
    var u := ToUpper(s);
    LevelLookupMatchesNames(s);
    if u in LevelTable then LevelTable[u] else HIGH
  }

  /** Looking the upper-cased input up in the table agrees with case-insensitive comparison to each name. */
  lemma LevelLookupMatchesNames(s: string)
    ensures forall l: ErrorLevel :: EqualIgnoringCase(s, LevelName(l)) <==> ToUpper(s) == LevelName(l)
    ensures ToUpper(s) in LevelTable <==> exists l: ErrorLevel :: EqualIgnoringCase(s, LevelName(l))
    ensures forall l: ErrorLevel :: EqualIgnoringCase(s, LevelName(l)) ==> LevelTable[ToUpper(s)] == l
  {
    forall l: ErrorLevel
      ensures EqualIgnoringCase(s, LevelName(l)) <==> ToUpper(s) == LevelName(l)
    {
      EqualIgnoringCaseUpperWord(s, LevelName(l));
    }
    LevelTableIsNames();
  }

  /** Format matching ignores letter case: inputs that differ only in case select the same format. */
  lemma FormatCaseInsensitive(a: string, b: string)
    requires EqualIgnoringCase(a, b)
    ensures ParseFormat(a) == ParseFormat(b)
  {
    UpperEqualIffEqualIgnoringCase(a, b);
    EqualIgnoringCaseUpperWord(a, "SVG");
    EqualIgnoringCaseUpperWord(b, "SVG");
  }

  /** Level matching ignores letter case: inputs that differ only in case select the same level. */
  lemma ErrorLevelCaseInsensitive(a: string, b: string)
    requires EqualIgnoringCase(a, b)
    ensures ParseErrorLevel(a) == ParseErrorLevel(b)
  {
    LevelLookupMatchesNames(a);
    LevelLookupMatchesNames(b);
    UpperEqualIffEqualIgnoringCase(a, b);
  }

  /** Every format's own name, parsed back, gives that format. */
  lemma FormatNameRoundTrip(f: QRFormat)
    ensures ParseFormat(FormatName(f)) == f
  {
    EqualIgnoringCaseUpperWord(FormatName(f), "SVG");
    ToUpperOfUpperWord(FormatName(f));
  }

  /** Every level's own name, parsed back, gives that level. */
  lemma LevelNameRoundTrip(l: ErrorLevel)
    ensures ParseErrorLevel(LevelName(l)) == l
  {
    ToUpperOfUpperWord(LevelName(l));
    UpperEqualIffEqualIgnoringCase(LevelName(l), LevelName(l));
  }

  /**
   * Exactly which inputs select a given level: those equal to its name up to
   * case, and, for HIGH only, also every input that names no level at all.
   */
  lemma ParseErrorLevelCharacterised(s: string, l: ErrorLevel)
    ensures ParseErrorLevel(s) == l <==>
      EqualIgnoringCase(s, LevelName(l)) ||
      (l == HIGH && forall k: ErrorLevel :: !EqualIgnoringCase(s, LevelName(k)))
  {
    LevelLookupMatchesNames(s);
    LevelNameInjective(l, ParseErrorLevel(s));
  }

  /** Sample inputs: the case variants of "svg" select SVG; anything else selects PNG. */
  lemma FormatExamples()
    ensures ParseFormat("svg") == SVG && ParseFormat("Svg") == SVG && ParseFormat("SVG") == SVG
    ensures ParseFormat("png") == PNG && ParseFormat("") == PNG && ParseFormat("jpeg") == PNG
    ensures ParseFormat("svgz") == PNG && ParseFormat("sv") == PNG
  {
    assert "svg"[0] == 's';
    assert !EqualIgnoringCase("png", "SVG") by { assert UpperChar("png"[0]) != UpperChar("SVG"[0]); }
    assert !EqualIgnoringCase("jpeg", "SVG");
    assert "Svg"[0] == 'S';
  }

  /** Sample inputs: level names in any case select their level. */
  lemma ErrorLevelNamedExamples()
    ensures ParseErrorLevel("low") == LOW && ParseErrorLevel("Medium") == MEDIUM
    ensures ParseErrorLevel("quartile") == QUARTILE && ParseErrorLevel("hIgH") == HIGH
  {
    assert EqualIgnoringCase("low", LevelName(LOW));
    assert EqualIgnoringCase("Medium", LevelName(MEDIUM));
    assert EqualIgnoringCase("quartile", LevelName(QUARTILE));
    assert EqualIgnoringCase("hIgH", LevelName(HIGH));
  }

  /** Sample inputs: strings naming no level fall back to HIGH. */
  lemma ErrorLevelFallbackExamples()
    ensures ParseErrorLevel("") == HIGH && ParseErrorLevel("H") == HIGH
    ensures ParseErrorLevel("lowest") == HIGH && ParseErrorLevel("med") == HIGH
  {
    forall l: ErrorLevel ensures !EqualIgnoringCase("lowest", LevelName(l)) {
      if l == MEDIUM {
        assert UpperChar("lowest"[0]) != UpperChar(LevelName(l)[0]);
      }
    }
    forall l: ErrorLevel ensures !EqualIgnoringCase("med", LevelName(l)) {
      if l == LOW {
        assert UpperChar("med"[0]) != UpperChar(LevelName(l)[0]);
      }
    }
  }
}
