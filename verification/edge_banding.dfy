/** The edge-banding synonym table of the dictation extractor
    (`bordoMapping`): a spoken phrase, lower-cased and trimmed, is looked up
    exactly; an unknown phrase means one long side. */
module EdgeBanding {
  import opened Options
  import opened JsText
  import opened Measures

  /** The fifteen spoken phrases of the table, four for each of the first
      three patterns and three for four sides. */
  const SynonymKeys: set<string> := {
    "1 lado largo", "un lado largo", "1 largo", "un largo",
    "1 lado largo y 1 lado corto", "un lado largo y un lado corto", "1 largo 1 corto", "un largo un corto",
    "1 lado largo y 2 lados cortos", "un lado largo y dos lados cortos", "1 largo 2 cortos", "un largo dos cortos",
    "4 lados", "cuatro lados", "todos los lados"}

  /** The phrases of each banding pattern. */
  const OneLongPhrases: set<string> := {"1 lado largo", "un lado largo", "1 largo", "un largo"}
  const OneLongOneShortPhrases: set<string> :=
    {"1 lado largo y 1 lado corto", "un lado largo y un lado corto", "1 largo 1 corto", "un largo un corto"}
  const OneLongTwoShortPhrases: set<string> :=
    {"1 lado largo y 2 lados cortos", "un lado largo y dos lados cortos", "1 largo 2 cortos", "un largo dos cortos"}
  const FourSidesPhrases: set<string> := {"4 lados", "cuatro lados", "todos los lados"}

  /** The synonym table: an entry for exactly the fifteen phrases, each one
      of the four identifiers. */
  function Synonym(key: string): (r: Option<Bordo>)
    ensures r.Some? <==> key in SynonymKeys
    ensures r.Some? ==> BordoId(r.value) in ValidIds
  {
    if key == "1 lado largo" then Some(OneLong)
    else if key == "un lado largo" then Some(OneLong)
    else if key == "1 largo" then Some(OneLong)
    else if key == "un largo" then Some(OneLong)
    else if key == "1 lado largo y 1 lado corto" then Some(OneLongOneShort)
    else if key == "un lado largo y un lado corto" then Some(OneLongOneShort)
    else if key == "1 largo 1 corto" then Some(OneLongOneShort)
    else if key == "un largo un corto" then Some(OneLongOneShort)
    else if key == "1 lado largo y 2 lados cortos" then Some(OneLongTwoShort)
    else if key == "un lado largo y dos lados cortos" then Some(OneLongTwoShort)
    else if key == "1 largo 2 cortos" then Some(OneLongTwoShort)
    else if key == "un largo dos cortos" then Some(OneLongTwoShort)
    else if key == "4 lados" then Some(FourSides)
    else if key == "cuatro lados" then Some(FourSides)
    else if key == "todos los lados" then Some(FourSides)
    else None
  }

  /** The four identifiers the rest of the application understands. */
  const ValidIds: set<string> := {"1-largo", "1-largo-1-corto", "1-largo-2-cortos", "4-lados"}

  /** `bordoText.toLowerCase().trim()` */
  function LookupKey(text: string): string {
    Trim(ToLower(text))
  }

  /** The lookup with the evident intent of the table: only the table's own
      entries are found, anything else falls back to one long side. */
  function BordoFromText(text: string): (r: Bordo)
    ensures BordoId(r) in ValidIds
    ensures Synonym(LookupKey(text)).Some? ==> r == Synonym(LookupKey(text)).value
    ensures Synonym(LookupKey(text)).None? ==> r == OneLong
  {
    BordoOfKey(LookupKey(text))
  }

  /** A key of the table gives its own entry; any other key, one long side. */
  function BordoOfKey(key: string): (r: Bordo)
    ensures BordoId(r) in ValidIds
    ensures Synonym(key).Some? ==> r == Synonym(key).value
    ensures Synonym(key).None? ==> r == OneLong
  {
    match Synonym(key)
    case Some(b) => b
    case None => OneLong
  }

  // ---------------------------------------------------------------------
  // The lookup as written

  /** What reading a property of a plain object literal yields: one of its own
      entries, or a member inherited from `Object.prototype`. */
  datatype PropertyValue = Own(bordo: Bordo) | Inherited(name: string)

  /** The inherited members of `Object.prototype` whose names are all
      lower-case, so that a lower-cased phrase can name them. Neither is a key
      of the table. */
  const LowerCaseInheritedNames: set<string> := {"constructor", "__proto__"}

  /** `bordoMapping[key] || "1-largo"` as JavaScript evaluates it: an
      inherited member is truthy and is returned instead of the fallback. */
  function BordoFromTextAsWritten(text: string): (r: PropertyValue)
    ensures r.Own? ==> r.bordo == BordoFromText(text)
    ensures r.Inherited? <==> LookupKey(text) in LowerCaseInheritedNames
  {
    PropertyOfKey(LookupKey(text))
  }

  function PropertyOfKey(key: string): (r: PropertyValue)
    ensures r.Own? ==> r.bordo == BordoOfKey(key)
    ensures r.Inherited? <==> key in LowerCaseInheritedNames
  {
    match Synonym(key)
    case Some(b) => Own(b)
    case None => if key in LowerCaseInheritedNames then Inherited(key) else Own(OneLong)
  }

  // ---------------------------------------------------------------------
  // Properties

  lemma LowerOfLower(s: string)
    requires forall i :: 0 <= i < |s| ==> !IsUpper(s[i])
    ensures ToLower(s) == s
  {
  }

  lemma TrimOfTrimmed(s: string)
    requires s == [] || (!IsSpace(s[0]) && !IsSpace(s[|s| - 1]))
    ensures Trim(s) == s
  {
    assert TrimStart(s) == s;
  }

  /** A phrase already lower-case and trimmed is its own lookup key. */
  lemma KeyOfNormalPhrase(s: string)
    requires forall i :: 0 <= i < |s| ==> !IsUpper(s[i])
    requires s == [] || (!IsSpace(s[0]) && !IsSpace(s[|s| - 1]))
    ensures LookupKey(s) == s
  {
    LowerOfLower(s);
    TrimOfTrimmed(s);
  }

  lemma LowerHasNoUpper(s: string)
    ensures forall i :: 0 <= i < |ToLower(s)| ==> !IsUpper(ToLower(s)[i])
  {
  }

  /** The trimmed string is a slice of the original with no white space at
      either end. */
  lemma TrimSlice(s: string)
    ensures var t := Trim(s);
      && (t == [] || (!IsSpace(t[0]) && !IsSpace(t[|t| - 1])))
      && (forall i :: 0 <= i < |t| ==> t[i] == s[|s| - |TrimStart(s)| + i])
  {
    var u := TrimStart(s);
    var t := TrimEnd(u);
    if t != [] {
      assert t[0] == u[0];
    }
  }

  /** Normalizing a phrase twice is normalizing it once, so the lookup ignores
      letter case and surrounding white space. */
  lemma LookupKeyIdempotent(text: string)
    ensures LookupKey(LookupKey(text)) == LookupKey(text)
    ensures BordoFromText(LookupKey(text)) == BordoFromText(text)
  {
    var k := LookupKey(text);
    NormalKey(text);
    assert BordoFromText(k) == BordoOfKey(LookupKey(k));
  }

  lemma NormalKey(text: string)
    ensures LookupKey(LookupKey(text)) == LookupKey(text)
  {
    var lower := ToLower(text);
    LowerHasNoUpper(text);
    TrimSlice(lower);
    var k := Trim(lower);
    assert forall i :: 0 <= i < |k| ==> !IsUpper(k[i]);
    KeyOfNormalPhrase(k);
  }

  /** A lower-case, trimmed table key is found as it is. */
  lemma LookupOfKey(s: string, b: Bordo)
    requires forall i :: 0 <= i < |s| ==> !IsUpper(s[i])
    requires s != [] && !IsSpace(s[0]) && !IsSpace(s[|s| - 1])
    requires Synonym(s) == Some(b)
    ensures BordoFromText(s) == b
  {
    KeyOfNormalPhrase(s);
  }

  /** The phrase this model uses to dictate each edge banding. */
  function Phrase(b: Bordo): string {
    match b
    case OneLong => "1 largo"
    case OneLongOneShort => "1 largo 1 corto"
    case OneLongTwoShort => "1 largo 2 cortos"
    case FourSides => "4 lados"
  }

  lemma PhraseInTable(b: Bordo)
    ensures Synonym(Phrase(b)) == Some(b)
  {
  }

  lemma PhraseChars(b: Bordo)
    ensures var p := Phrase(b);
      forall i :: 0 <= i < |p| ==> !IsUpper(p[i]) && (IsWordChar(p[i]) || IsSpace(p[i]))
  {
  }

  lemma PhraseEnds(b: Bordo)
    ensures var p := Phrase(b); p != [] && !IsSpace(p[0]) && !IsSpace(p[|p| - 1])
  {
  }

  /** Every edge banding has a phrase in the table that the lookup maps back
      to it, and that phrase is text the dictation recognizers capture. */
  lemma PhraseRoundTrip(b: Bordo)
    ensures BordoFromText(Phrase(b)) == b
    ensures |Phrase(b)| > 0
    ensures forall i :: 0 <= i < |Phrase(b)| ==> IsWordChar(Phrase(b)[i]) || IsSpace(Phrase(b)[i])
  {
    PhraseInTable(b);
    PhraseChars(b);
    PhraseEnds(b);
    LookupOfKey(Phrase(b), b);
  }

  /** Every phrase of the table gives the pattern it names: four phrases
      for each of the first three patterns and three for four sides. */
  lemma SynonymEntries(key: string)
    ensures key in OneLongPhrases ==> Synonym(key) == Some(OneLong)
    ensures key in OneLongOneShortPhrases ==> Synonym(key) == Some(OneLongOneShort)
    ensures key in OneLongTwoShortPhrases ==> Synonym(key) == Some(OneLongTwoShort)
    ensures key in FourSidesPhrases ==> Synonym(key) == Some(FourSides)
  {
  }

  lemma FourSidesInTable(s: string)
    requires s == "4 lados" || s == "cuatro lados" || s == "todos los lados"
    ensures Synonym(s) == Some(FourSides)
  {
  }

  lemma FourSidesChars(s: string)
    requires s == "4 lados" || s == "cuatro lados" || s == "todos los lados"
    ensures forall i :: 0 <= i < |s| ==> !IsUpper(s[i])
  {
  }

  lemma FourSidesEnds(s: string)
    requires s == "4 lados" || s == "cuatro lados" || s == "todos los lados"
    ensures s != [] && !IsSpace(s[0]) && !IsSpace(s[|s| - 1])
  {
  }

  /** The spoken forms of "all four sides" all mean four sides. */
  lemma FourSidesSynonyms(s: string)
    requires s == "4 lados" || s == "cuatro lados" || s == "todos los lados"
    ensures BordoFromText(s) == FourSides
  {
    FourSidesInTable(s);
    FourSidesChars(s);
    FourSidesEnds(s);
    LookupOfKey(s, FourSides);
  }

  /** The table as written is not closed. The utterance "1 por 2
      constructor" gives the phrase `constructor`, text the recognizers
      capture and already lower-case and trimmed, so it is its own lookup key
      (`KeyOfNormalPhrase`); reading it from the object literal yields the
      inherited `Object` constructor, which is truthy and is not one of the
      four edge-banding identifiers. `__proto__` behaves the same. The
      corrected lookup falls back to one long side for both. */
  lemma AsWrittenLeaksPrototype()
    ensures forall i :: 0 <= i < |"constructor"| ==> IsWordChar("constructor"[i]) && !IsUpper("constructor"[i])
    ensures forall i :: 0 <= i < |"__proto__"| ==> IsWordChar("__proto__"[i]) && !IsUpper("__proto__"[i])
    ensures PropertyOfKey("constructor") == Inherited("constructor")
    ensures PropertyOfKey("__proto__") == Inherited("__proto__")
    ensures BordoOfKey("constructor") == OneLong && BordoOfKey("__proto__") == OneLong
  {
  }

  /** Wherever the lookup as written yields a table entry, the corrected
      lookup yields the same entry. */
  lemma CorrectedAgreesOnOwnEntries(text: string)
    requires LookupKey(text) !in LowerCaseInheritedNames
    ensures BordoFromTextAsWritten(text) == Own(BordoFromText(text))
  {
  }
}
