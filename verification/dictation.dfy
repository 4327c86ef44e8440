/** The dictation extractor (`parseMeasuresFromText` of the voice recorder):
    three recognizers run over the transcribed text in a fixed order; each
    match is read in the field order of its recognizer, its dimensions must be
    positive numbers, its edge-banding phrase goes through the synonym table,
    and drilling and finish take their defaults. Nothing is deduplicated. */
module Dictation {
  import opened Options
  import opened JsText
  import opened Numerals
  import opened Measures
  import opened EdgeBanding
  import opened Captures
  import opened Seqs

  /** The three recognizers, in the order they are tried:
      "2 unidades de 23.4 por 33.1 bordo 4 lados",
      "23.4 x 33.1 cantidad 2 bordo 1 largo",
      "largo 120 ancho 60 cantidad 1". */
  datatype VoicePattern = QuantityFirst | DimensionsFirst | Labelled

  datatype VoiceHit = VoiceHit(pattern: VoicePattern, captures: RawMatch)

  /** What each regular expression guarantees of the groups it reports. */
  predicate Conforms(h: VoiceHit) {
    var m := h.captures;
    match h.pattern
    case QuantityFirst =>
      && |m.groups| == 4 && HoldsDigits(Group(m, 1))
      && HoldsNumeral(Group(m, 2)) && HoldsNumeral(Group(m, 3)) && MayHoldPhrase(Group(m, 4))
    case DimensionsFirst =>
      && |m.groups| == 4 && HoldsNumeral(Group(m, 1)) && HoldsNumeral(Group(m, 2))
      && MayHoldDigits(Group(m, 3)) && MayHoldPhrase(Group(m, 4))
    case Labelled =>
      && |m.groups| == 3 && HoldsNumeral(Group(m, 1)) && HoldsNumeral(Group(m, 2))
      && MayHoldDigits(Group(m, 3))
  }

  /** The fields read from one match before conversion. `cantidad` is what is
      handed to `parseInt` (`None` for `undefined`); the default quantity, the
      number 1, is read as the text "1", which `parseInt` treats alike.
      `bordoText` is the captured banding phrase, `None` standing for the
      default phrase "1 largo" (see `DefaultPhrase`). */
  datatype Reading = Reading(cantidad: Option<string>, largo: Option<string>, ancho: Option<string>, bordoText: Option<string>)

  /** The banding of the phrase read from a match; the default phrase bands
      one long side. */
  function Banding(t: Option<string>): Bordo {
    match t
    case None => OneLong
    case Some(s) => BordoFromText(s)
  }

  /** The default phrase "1 largo" goes through the synonym table to one long
      side, so reading it as `None` changes nothing. */
  lemma DefaultPhrase()
    ensures Phrase(OneLong) == "1 largo"
    ensures BordoFromText(Phrase(OneLong)) == Banding(None)
  {
    PhraseRoundTrip(OneLong);
  }

  /** The field order chosen from the recognizer. */
  function Read(h: VoiceHit): Reading {
    var m := h.captures;
    match h.pattern
    case Labelled =>
      Reading(Some(Or(Group(m, 3), "1")), Group(m, 1), Group(m, 2), None)
    case QuantityFirst =>
      Reading(Group(m, 1), Group(m, 2), Group(m, 3), Group(m, 4))
    case DimensionsFirst =>
      Reading(Some(Or(Group(m, 3), "1")), Group(m, 1), Group(m, 2), Group(m, 4))
  }

  /** `parseInt(cantidad)` */
  function ParseQuantity(c: Option<string>): Quantity {
    match c
    case None => NaN
    case Some(s) => ParseInt(s)
  }

  /** One match turned into a measure, or `None` when a dimension is `NaN` or
      not greater than zero. A kept record has the two dimensions read from
      the match, no drilling, the soft finish and one of the four banding
      identifiers. */
  function ToMeasure(h: VoiceHit): (r: Option<Measure>)
    ensures var largo := ParseFloat(Read(h).largo);
      var ancho := ParseFloat(Read(h).ancho);
      && (r.Some? <==> largo.Some? && ancho.Some? && IsPositive(largo.value) && IsPositive(ancho.value))
      && (r.Some? ==> r.value.largo == largo.value && r.value.ancho == ancho.value)
    ensures r.Some? ==> Plausible(r.value) && BordoId(r.value.tipoBordo) in ValidIds
  {
    var f := Read(h);
    var largo := ParseFloat(f.largo);
    var ancho := ParseFloat(f.ancho);
    if largo.None? || ancho.None? || !IsPositive(largo.value) || !IsPositive(ancho.value) then None
    else Some(Measure(ParseQuantity(f.cantidad), largo.value, ancho.value, Banding(f.bordoText), Ninguna, Suave))
  }

  /** Every match converted on its own, in match order. */
  function Convert(hits: seq<VoiceHit>): (r: seq<Option<Measure>>)
    ensures |r| == |hits| && forall i :: 0 <= i < |hits| ==> r[i] == ToMeasure(hits[i])
  {
    MapSeq(ToMeasure, hits)
  }

  /** What a dictated record carries once accepted: positive dimensions in
      canonical form, no drilling, the soft finish. */
  predicate Plausible(m: Measure) {
    && IsPositive(m.largo) && IsPositive(m.ancho)
    && Normalized(m.largo) && Normalized(m.ancho)
    && m.perforacion == Ninguna && m.cantoBordo == Suave
  }

  /** The accepted records of a run of conversions, in order. */
  function Accepted(rs: seq<Option<Measure>>): (r: seq<Measure>)
    ensures |r| <= |rs|
    ensures (forall i :: 0 <= i < |rs| && rs[i].Some? ==> Plausible(rs[i].value)) ==>
      forall i :: 0 <= i < |r| ==> Plausible(r[i])
  {
    if rs == [] then []
    else
      var rest := Accepted(rs[1..]);
      assert forall i :: 1 <= i < |rs| ==> rs[1..][i - 1] == rs[i];
      match rs[0]
      case None => rest
      case Some(m) => [m] + rest
  }

  lemma ConvertPlausible(hits: seq<VoiceHit>)
    ensures forall i :: 0 <= i < |hits| && Convert(hits)[i].Some? ==> Plausible(Convert(hits)[i].value)
  {
  }

  /** The measures of the accepted matches, in match order. */
  function ExtractAll(hits: seq<VoiceHit>): (r: seq<Measure>)
    ensures |r| <= |hits|
    ensures forall i :: 0 <= i < |r| ==> IsPositive(r[i].largo) && IsPositive(r[i].ancho)
    ensures forall i :: 0 <= i < |r| ==> Normalized(r[i].largo) && Normalized(r[i].ancho)
    ensures forall i :: 0 <= i < |r| ==> r[i].perforacion == Ninguna && r[i].cantoBordo == Suave
  {
    ConvertPlausible(hits);
    Accepted(Convert(hits))
  }

  /** No match is merged with another: when every match is accepted, each
      yields its own record in match order, repeated measures included; when
      none is, nothing is extracted. */
  lemma ExtractAllKeepsEveryMatch(hits: seq<VoiceHit>)
    ensures (forall i :: 0 <= i < |hits| ==> ToMeasure(hits[i]).None?) ==> ExtractAll(hits) == []
    ensures (forall i :: 0 <= i < |hits| ==> ToMeasure(hits[i]).Some?) ==>
      |ExtractAll(hits)| == |hits| && forall i :: 0 <= i < |hits| ==> ExtractAll(hits)[i] == ToMeasure(hits[i]).value
  {
    var rs := Convert(hits);
    if forall i :: 0 <= i < |hits| ==> ToMeasure(hits[i]).None? {
      AcceptedNone(rs);
    }
    if forall i :: 0 <= i < |hits| ==> ToMeasure(hits[i]).Some? {
      AcceptedEvery(rs);
    }
  }

  lemma {:induction false} AcceptedNone(rs: seq<Option<Measure>>)
    requires forall i :: 0 <= i < |rs| ==> rs[i].None?
    ensures Accepted(rs) == []
  {
    if rs != [] {
      assert rs[0].None?;
      assert forall i :: 1 <= i < |rs| ==> rs[1..][i - 1] == rs[i];
      AcceptedNone(rs[1..]);
    }
  }

  lemma {:induction false} AcceptedEvery(rs: seq<Option<Measure>>)
    requires forall i :: 0 <= i < |rs| ==> rs[i].Some?
    ensures |Accepted(rs)| == |rs|
    ensures forall i :: 0 <= i < |rs| ==> Accepted(rs)[i] == rs[i].value
  {
    if rs != [] {
      assert rs[0].Some?;
      assert forall i :: 1 <= i < |rs| ==> rs[1..][i - 1] == rs[i];
      AcceptedEvery(rs[1..]);
      assert Accepted(rs) == [rs[0].value] + Accepted(rs[1..]);
    }
  }

  /** Extraction works match by match: the measures of two runs of matches
      are the measures of the first run followed by those of the second. */
  lemma ExtractAllAppend(a: seq<VoiceHit>, b: seq<VoiceHit>)
    ensures ExtractAll(a + b) == ExtractAll(a) + ExtractAll(b)
  {
    MapSeqAppend(ToMeasure, a, b);
    AcceptedAppend(Convert(a), Convert(b));
  }

  lemma {:induction false} AcceptedAppend(xs: seq<Option<Measure>>, ys: seq<Option<Measure>>)
    ensures Accepted(xs + ys) == Accepted(xs) + Accepted(ys)
  {
    if xs == [] {
      assert xs + ys == ys;
    } else {
      assert (xs + ys)[0] == xs[0];
      assert (xs + ys)[1..] == xs[1..] + ys;
      AcceptedAppend(xs[1..], ys);
    }
  }

  /** The matches each recognizer reports on one text, in the order `exec`
      finds them. */
  datatype VoiceScan = VoiceScan(
    quantityFirst: seq<RawMatch>,
    dimensionsFirst: seq<RawMatch>,
    labelled: seq<RawMatch>)

  function Tag(p: VoicePattern, ms: seq<RawMatch>): (r: seq<VoiceHit>)
    ensures |r| == |ms| && forall i :: 0 <= i < |ms| ==> r[i] == VoiceHit(p, ms[i])
  {
    if ms == [] then [] else [VoiceHit(p, ms[0])] + Tag(p, ms[1..])
  }

  /** The dictation extractor: all matches of the first recognizer, then of
      the second, then of the third. */
  function ParseMeasuresFromText(scan: VoiceScan): (r: seq<Measure>)
    ensures r == ExtractAll(Tag(QuantityFirst, scan.quantityFirst))
               + ExtractAll(Tag(DimensionsFirst, scan.dimensionsFirst))
               + ExtractAll(Tag(Labelled, scan.labelled))
    ensures forall i :: 0 <= i < |r| ==> IsPositive(r[i].largo) && IsPositive(r[i].ancho)
    ensures forall i :: 0 <= i < |r| ==> r[i].perforacion == Ninguna && r[i].cantoBordo == Suave
    ensures scan.quantityFirst == [] && scan.dimensionsFirst == [] && scan.labelled == [] ==> r == []
  {
    var q := Tag(QuantityFirst, scan.quantityFirst);
    var d := Tag(DimensionsFirst, scan.dimensionsFirst);
    var l := Tag(Labelled, scan.labelled);
    ExtractAllAppend(q + d, l);
    ExtractAllAppend(q, d);
    ExtractAll(q + d + l)
  }

  // ---------------------------------------------------------------------
  // Field order

  /** The capture group that holds the length, width and quantity for each
      recognizer. */
  function LargoGroup(p: VoicePattern): nat {
    if p == QuantityFirst then 2 else 1
  }

  function AnchoGroup(p: VoicePattern): nat {
    if p == QuantityFirst then 3 else 2
  }

  function CantidadGroup(p: VoicePattern): nat {
    if p == QuantityFirst then 1 else 3
  }

  /** On a match its recognizer can report, the record is kept exactly when
      both dimensions are positive, and its length and width come from the
      groups of the recognizer's field order. */
  lemma FieldOrder(h: VoiceHit)
    requires Conforms(h)
    ensures var largo := ParseFloat(Group(h.captures, LargoGroup(h.pattern)));
      var ancho := ParseFloat(Group(h.captures, AnchoGroup(h.pattern)));
      && largo.Some? && ancho.Some?
      && (ToMeasure(h).Some? <==> IsPositive(largo.value) && IsPositive(ancho.value))
      && (ToMeasure(h).Some? ==> ToMeasure(h).value.largo == largo.value && ToMeasure(h).value.ancho == ancho.value)
  {
    var m := h.captures;
    assert Read(h).largo == Group(m, LargoGroup(h.pattern));
    assert Read(h).ancho == Group(m, AnchoGroup(h.pattern));
  }

  /** On a match its recognizer can report and that is kept, the quantity is
      the value of its digits or 1 when the group is absent; the labelled
      form always bands one long side and the others use the phrase they
      captured, or one long side; drilling and finish take their defaults. */
  lemma FieldDefaults(h: VoiceHit)
    requires Conforms(h)
    ensures var m := h.captures;
      var cantidad := Group(m, CantidadGroup(h.pattern));
      var r := ToMeasure(h);
      && (r.Some? ==> r.value.cantidad == if cantidad.Some? then Num(DigitsValue(cantidad.value)) else Num(1))
      && (r.Some? && h.pattern == Labelled ==> r.value.tipoBordo == OneLong)
      && (r.Some? && h.pattern != Labelled ==>
            r.value.tipoBordo == if Group(m, 4).Some? then BordoFromText(Group(m, 4).value) else OneLong)
      && (r.Some? ==> r.value.perforacion == Ninguna && r.value.cantoBordo == Suave)
  {
    QuantityField(h);
    BandingField(h);
  }

  /** The quantity read from a conforming match is its digits, or 1. */
  lemma QuantityField(h: VoiceHit)
    requires Conforms(h)
    ensures var c := Group(h.captures, CantidadGroup(h.pattern));
      ParseQuantity(Read(h).cantidad) == if c.Some? then Num(DigitsValue(c.value)) else Num(1)
  {
    var c := Group(h.captures, CantidadGroup(h.pattern));
    if c.Some? {
      assert ParseInt(c.value) == Num(DigitsValue(c.value));
    } else {
      assert IsDigits("1") && DigitsValue("1") == 1;
    }
  }

  /** The banding read from a match: one long side for the labelled form,
      the captured phrase or one long side for the others. */
  lemma BandingField(h: VoiceHit)
    ensures h.pattern == Labelled ==> Banding(Read(h).bordoText) == OneLong
    ensures h.pattern != Labelled ==> Read(h).bordoText == Group(h.captures, 4)
  {
  }

  // ---------------------------------------------------------------------
  // Round trip

  /** The groups each recognizer reports for an utterance in its own
      phrasing, given the texts of the quantity, length, width and banding
      phrase, e.g. "2 unidades de 120 por 60 bordo 4 lados". */
  function GroupsOf(p: VoicePattern, q: string, l: string, a: string, phrase: string): RawMatch {
    match p
    case QuantityFirst => RawMatch([Some(q), Some(l), Some(a), Some(phrase)])
    case DimensionsFirst => RawMatch([Some(l), Some(a), Some(q), Some(phrase)])
    case Labelled => RawMatch([Some(l), Some(a), Some(q)])
  }

  /** Each recognizer's field order reads every group back into the field it
      was written from. */
  lemma ReadGroups(p: VoicePattern, q: string, l: string, a: string, phrase: string)
    requires IsDigits(q) && IsNumeral(l) && IsNumeral(a) && IsPhraseText(phrase)
    ensures Conforms(VoiceHit(p, GroupsOf(p, q, l, a, phrase)))
    ensures Read(VoiceHit(p, GroupsOf(p, q, l, a, phrase)))
      == Reading(Some(q), Some(l), Some(a), if p == Labelled then None else Some(phrase))
  {
  }

  /** A reading with two positive dimensions becomes the measure of its
      fields. */
  lemma MeasureOfReading(h: VoiceHit, q: string, x: Dec, y: Dec)
    requires Read(h).cantidad == Some(q)
    requires Read(h).largo.Some? && ParseFloat(Read(h).largo) == Some(x) && IsPositive(x)
    requires Read(h).ancho.Some? && ParseFloat(Read(h).ancho) == Some(y) && IsPositive(y)
    ensures ToMeasure(h) == Some(Measure(ParseInt(q), x, y, Banding(Read(h).bordoText), Ninguna, Suave))
  {
  }

  /** The groups each recognizer reports for the dictation of `m`. */
  function CapturesOf(p: VoicePattern, m: Measure): RawMatch
    requires m.cantidad.Num? && m.cantidad.value >= 0
  {
    GroupsOf(p, NatToString(m.cantidad.value), NumberToString(m.largo), NumberToString(m.ancho), Phrase(m.tipoBordo))
  }

  /** Dictating a measure in any of the three phrasings and extracting it
      gives the measure back: each recognizer's field order puts every
      captured value in the field it names. */
  lemma DictationRoundTrip(p: VoicePattern, m: Measure)
    requires m.cantidad.Num? && m.cantidad.value >= 0
    requires Normalized(m.largo) && Normalized(m.ancho)
    requires IsPositive(m.largo) && IsPositive(m.ancho)
    requires m.perforacion == Ninguna && m.cantoBordo == Suave
    requires p == Labelled ==> m.tipoBordo == OneLong
    ensures Conforms(VoiceHit(p, CapturesOf(p, m)))
    ensures ToMeasure(VoiceHit(p, CapturesOf(p, m))) == Some(m)
  {
    var q := NatToString(m.cantidad.value);
    var l := NumberToString(m.largo);
    var a := NumberToString(m.ancho);
    var phrase := Phrase(m.tipoBordo);
    NumberToStringRoundTrip(m.largo);
    NumberToStringRoundTrip(m.ancho);
    PhraseRoundTrip(m.tipoBordo);
    assert ParseInt(q) == Num(DigitsValue(q));
    ReadGroups(p, q, l, a, phrase);
    var h := VoiceHit(p, GroupsOf(p, q, l, a, phrase));
    MeasureOfReading(h, q, m.largo, m.ancho);
    assert Banding(Read(h).bordoText) == m.tipoBordo;
  }
}
