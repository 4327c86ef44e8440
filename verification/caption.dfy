/** The caption extractor (`parseMeasuresFromText` of the camera capture and
    file upload components): four recognizers for pairs of dimensions, a
    plausibility range of 10 to 500 centimetres on both sides, default values
    for every other field, and removal of repeated sizes. */
module Caption {
  import opened Options
  import opened Numerals
  import opened Measures
  import opened Captures
  import opened Dedup

  /** The four recognizers, in the order they are tried: "120 x 60" or
      "120 por 60"; "largo 120 ancho 60"; "120cm x 60cm"; and
      "120 centímetros por 60 cm". */
  datatype CaptionPattern = Times | Labelled | Centimetres | CentimetreWords

  datatype CaptionHit = CaptionHit(pattern: CaptionPattern, captures: RawMatch)

  /** Every recognizer reports two numerals: length, then width. */
  predicate Conforms(h: CaptionHit) {
    |h.captures.groups| == 2 && HoldsNumeral(Group(h.captures, 1)) && HoldsNumeral(Group(h.captures, 2))
  }

  const MinSide: nat := 10
  const MaxSide: nat := 500

  /** A plausible side: between 10 and 500 centimetres inclusive. */
  predicate InRange(d: Dec) {
    AtLeast(d, MinSide) && AtMost(d, MaxSide)
  }

  /** The fields a caption cannot carry: one unit, one long side banded, no
      drilling, soft edge. */
  predicate HasCaptionDefaults(m: Measure) {
    m.cantidad == Num(1) && m.tipoBordo == OneLong && m.perforacion == Ninguna && m.cantoBordo == Suave
  }

  /** One match turned into a record, or `None` when a side is `NaN` or out
      of range. A kept record has the two sides read from the match and the
      default fields. */
  function Candidate(h: CaptionHit): (r: Option<Measure>)
    ensures var largo := ParseFloat(Group(h.captures, 1));
      var ancho := ParseFloat(Group(h.captures, 2));
      && (r.Some? <==> largo.Some? && ancho.Some? && InRange(largo.value) && InRange(ancho.value))
      && (r.Some? ==> r.value.largo == largo.value && r.value.ancho == ancho.value)
    ensures r.Some? ==> Normalized(r.value.largo) && Normalized(r.value.ancho) && HasCaptionDefaults(r.value)
  {
    var largo := ParseFloat(Group(h.captures, 1));
    var ancho := ParseFloat(Group(h.captures, 2));
    if largo.Some? && ancho.Some? && InRange(largo.value) && InRange(ancho.value)
    then Some(Measure(Num(1), largo.value, ancho.value, OneLong, Ninguna, Suave))
    else None
  }

  /** The records of the accepted matches, in match order, before duplicate
      removal. */
  function Candidates(hits: seq<CaptionHit>): (r: seq<Measure>)
    ensures |r| <= |hits|
    ensures forall i :: 0 <= i < |r| ==> InRange(r[i].largo) && InRange(r[i].ancho)
    ensures forall i :: 0 <= i < |r| ==> Normalized(r[i].largo) && Normalized(r[i].ancho)
    ensures forall i :: 0 <= i < |r| ==> HasCaptionDefaults(r[i])
  {
    if hits == [] then []
    else
      var rest := Candidates(hits[1..]);
      match Candidate(hits[0])
      case None => rest
      case Some(m) => [m] + rest
  }

  /** Candidates are collected match by match. */
  lemma {:induction false} CandidatesAppend(a: seq<CaptionHit>, b: seq<CaptionHit>)
    ensures Candidates(a + b) == Candidates(a) + Candidates(b)
  {
    if a == [] {
      assert a + b == b;
    } else {
      assert (a + b)[0] == a[0];
      assert (a + b)[1..] == a[1..] + b;
      CandidatesAppend(a[1..], b);
    }
  }

  /** The sizes of the accepted matches. */
  function AcceptedSizes(hits: seq<CaptionHit>): set<Size> {
    set h | h in hits && Candidate(h).Some? :: SizeOf(Candidate(h).value)
  }

  /** The candidates carry exactly the sizes of the accepted matches. */
  lemma {:induction false} CandidateSizes(hits: seq<CaptionHit>)
    ensures Sizes(Candidates(hits)) == AcceptedSizes(hits)
  {
    if hits != [] {
      CandidateSizes(hits[1..]);
      assert hits == [hits[0]] + hits[1..];
      var rest := Candidates(hits[1..]);
      if Candidate(hits[0]).Some? {
        assert Candidates(hits) == [Candidate(hits[0]).value] + rest;
        assert Sizes([Candidate(hits[0]).value] + rest) == {SizeOf(Candidate(hits[0]).value)} + Sizes(rest);
      }
    }
  }

  /** When no match is accepted there is no candidate. */
  lemma {:induction false} NothingAccepted(hits: seq<CaptionHit>)
    ensures (forall k :: 0 <= k < |hits| ==> Candidate(hits[k]).None?) ==> Candidates(hits) == []
  {
    if hits != [] {
      NothingAccepted(hits[1..]);
      assert forall k :: 1 <= k < |hits| ==> hits[1..][k - 1] == hits[k];
    }
  }

  /** The matches each recognizer reports on one caption, in the order
      `exec` finds them. */
  datatype CaptionScan = CaptionScan(
    times: seq<RawMatch>,
    labelled: seq<RawMatch>,
    centimetres: seq<RawMatch>,
    centimetreWords: seq<RawMatch>)

  function Tag(p: CaptionPattern, ms: seq<RawMatch>): (r: seq<CaptionHit>)
    ensures |r| == |ms| && forall i :: 0 <= i < |ms| ==> r[i] == CaptionHit(p, ms[i])
  {
    if ms == [] then [] else [CaptionHit(p, ms[0])] + Tag(p, ms[1..])
  }

  /** All matches, recognizer by recognizer. */
  function Hits(scan: CaptionScan): seq<CaptionHit> {
    Tag(Times, scan.times) + Tag(Labelled, scan.labelled)
    + Tag(Centimetres, scan.centimetres) + Tag(CentimetreWords, scan.centimetreWords)
  }

  /** The caption extractor: plausible records with default fields, one per
      size, whose sizes are exactly those of the accepted matches; extracting
      again from its own output changes nothing. */
  function ParseMeasuresFromText(scan: CaptionScan): (r: seq<Measure>)
    ensures DistinctSizes(r)
    ensures forall i :: 0 <= i < |r| ==> InRange(r[i].largo) && InRange(r[i].ancho)
    ensures forall i :: 0 <= i < |r| ==> HasCaptionDefaults(r[i])
    ensures Sizes(r) == AcceptedSizes(Hits(scan))
    ensures |r| <= |Hits(scan)|
    ensures forall i :: 0 <= i < |r| ==> 0 <= FindIndex(Candidates(Hits(scan)), SizeOf(r[i]))
    ensures forall i, j :: 0 <= i < j < |r| ==>
      FindIndex(Candidates(Hits(scan)), SizeOf(r[i])) < FindIndex(Candidates(Hits(scan)), SizeOf(r[j]))
    ensures (forall k :: 0 <= k < |Hits(scan)| ==> Candidate(Hits(scan)[k]).None?) ==> r == []
    ensures UniqueMeasures(r) == r
  {
    var c := Candidates(Hits(scan));
    CandidateSizes(Hits(scan));
    var r := UniqueMeasures(c);
    UniqueMeasuresFrom(c);
    NothingAccepted(Hits(scan));
    UniqueMeasuresIdempotent(c);
    r
  }

  /** Candidates come recognizer by recognizer, each in match order. */
  lemma CandidatesByRecognizer(scan: CaptionScan)
    ensures Candidates(Hits(scan))
      == Candidates(Tag(Times, scan.times)) + Candidates(Tag(Labelled, scan.labelled))
       + Candidates(Tag(Centimetres, scan.centimetres)) + Candidates(Tag(CentimetreWords, scan.centimetreWords))
  {
    var a := Tag(Times, scan.times);
    var b := Tag(Labelled, scan.labelled);
    var c := Tag(Centimetres, scan.centimetres);
    var d := Tag(CentimetreWords, scan.centimetreWords);
    CandidatesAppend(a + b + c, d);
    CandidatesAppend(a + b, c);
    CandidatesAppend(a, b);
  }

  /** Every accepted match is a record with its own two sides and default
      fields, and a match is accepted exactly when both sides are
      plausible. */
  lemma CandidateOfConforming(h: CaptionHit)
    requires Conforms(h)
    ensures var largo := ParseFloat(Group(h.captures, 1));
      var ancho := ParseFloat(Group(h.captures, 2));
      && largo.Some? && ancho.Some?
      && (Candidate(h).Some? <==> InRange(largo.value) && InRange(ancho.value))
      && (Candidate(h).Some? ==>
            Candidate(h).value == Measure(Num(1), largo.value, ancho.value, OneLong, Ninguna, Suave))
  {
  }

  /** The groups a recognizer reports for a caption naming the sides `l` and
      `a`, as in "120 x 60". */
  function CapturesOf(l: Dec, a: Dec): RawMatch {
    RawMatch([Some(NumberToString(l)), Some(NumberToString(a))])
  }

  /** A caption naming one plausible size, through any recognizer, gives
      exactly that size with default fields. */
  lemma CaptionRoundTrip(p: CaptionPattern, l: Dec, a: Dec)
    requires Normalized(l) && Normalized(a) && InRange(l) && InRange(a)
    ensures Conforms(CaptionHit(p, CapturesOf(l, a)))
    ensures Candidate(CaptionHit(p, CapturesOf(l, a))) == Some(Measure(Num(1), l, a, OneLong, Ninguna, Suave))
  {
    NumberToStringRoundTrip(l);
    NumberToStringRoundTrip(a);
  }

  /** "120cm x 60cm" is reported by the third and the fourth recognizer;
      the two records have the same size and only one is kept. */
  lemma RepeatedSizeKeptOnce(l: Dec, a: Dec)
    requires Normalized(l) && Normalized(a) && InRange(l) && InRange(a)
    ensures ParseMeasuresFromText(CaptionScan([], [], [CapturesOf(l, a)], [CapturesOf(l, a)]))
      == [Measure(Num(1), l, a, OneLong, Ninguna, Suave)]
  {
    var m := Measure(Num(1), l, a, OneLong, Ninguna, Suave);
    var scan := CaptionScan([], [], [CapturesOf(l, a)], [CapturesOf(l, a)]);
    CaptionRoundTrip(Centimetres, l, a);
    CaptionRoundTrip(CentimetreWords, l, a);
    var hits := Hits(scan);
    assert hits == [CaptionHit(Centimetres, CapturesOf(l, a)), CaptionHit(CentimetreWords, CapturesOf(l, a))];
    assert Candidates(hits[1..]) == [m];
    assert Candidates(hits) == [m, m];
    assert FilterFirst([m, m], 2) == [];
    assert FindIndex([m, m], SizeOf(m)) == 0;
    assert FilterFirst([m, m], 1) == [];
    assert FilterFirst([m, m], 0) == [m];
  }

  /** "119 por 9" names a width under ten centimetres: nothing is
      extracted. */
  lemma ImplausibleWidthRejected()
    ensures ParseMeasuresFromText(CaptionScan([RawMatch([Some("119"), Some("9")])], [], [], [])) == []
  {
    var h := CaptionHit(Times, RawMatch([Some("119"), Some("9")]));
    var nine := Dec(9, 0);
    assert NatToString(9) == "9";
    NumberToStringRoundTrip(nine);
    assert ParseFloat(Some("9")) == Some(nine);
    assert Candidate(h) == None;
    assert Hits(CaptionScan([RawMatch([Some("119"), Some("9")])], [], [], [])) == [h];
  }

  /** "120 por 60" gives one record: 120 by 60, one unit, one long side
      banded. */
  lemma PlausibleCaptionAccepted()
    ensures ParseMeasuresFromText(CaptionScan([RawMatch([Some("120"), Some("60")])], [], [], []))
      == [Measure(Num(1), Dec(120, 0), Dec(60, 0), OneLong, Ninguna, Suave)]
  {
    var m := Measure(Num(1), Dec(120, 0), Dec(60, 0), OneLong, Ninguna, Suave);
    assert NatToString(120) == "120";
    assert NatToString(60) == "60";
    CaptionRoundTrip(Times, Dec(120, 0), Dec(60, 0));
    assert CapturesOf(Dec(120, 0), Dec(60, 0)) == RawMatch([Some("120"), Some("60")]);
    var hits := Hits(CaptionScan([RawMatch([Some("120"), Some("60")])], [], [], []));
    assert hits == [CaptionHit(Times, CapturesOf(Dec(120, 0), Dec(60, 0)))];
    assert Candidates(hits) == [m];
    assert FilterFirst([m], 1) == [];
    assert FilterFirst([m], 0) == [m];
  }
}
