/** The list of quotation lines kept by the quotation form: lines added by
    hand from the entry fields, lines removed by position, and batches of
    extracted measures appended at the end. Every change leaves the lines
    numbered 1, 2, 3, ... in list order. */
module Quotation {
  import opened Options
  import opened JsText
  import opened Numerals
  import opened Measures
  import opened Description
  import opened Seqs

  /** One line of the quotation. Length and width are kept as text, as they
      were typed or as the extracted number prints. */
  datatype Line = Line(
    linea: nat,
    cantidad: Quantity,
    largo: string,
    ancho: string,
    perforacion: Perforacion,
    tipoBordo: Bordo,
    cantoBordo: Canto,
    descripcion: string)

  /** The entry fields for a line typed by hand; the quantity is the text of
      its field (the initial number 1 prints as "1"). */
  datatype Draft = Draft(
    largo: string,
    ancho: string,
    cantidad: string,
    perforacion: Perforacion,
    tipoBordo: Bordo,
    cantoBordo: Canto)

  const BlankDraft: Draft := Draft("", "", "1", Ninguna, OneLong, Suave)

  datatype Form = Form(medidas: seq<Line>, draft: Draft, transcripcion: string)

  /** The lines are numbered from 1 in list order. */
  predicate Contiguous(m: seq<Line>) {
    forall i :: 0 <= i < |m| ==> m[i].linea == i + 1
  }

  /** A line with its number set aside: what reindexing keeps. */
  function Content(l: Line): Line {
    l.(linea := 0)
  }

  // ---------------------------------------------------------------------
  // Adding a line by hand

  /** The line the entry fields describe, numbered `linea`. */
  function DraftLine(d: Draft, linea: nat): Line {
    Line(linea, ParseInt(d.cantidad), d.largo, d.ancho, d.perforacion, d.tipoBordo, d.cantoBordo,
         Describe(d.cantidad, d.largo, d.ancho, d.perforacion, d.tipoBordo, d.cantoBordo))
  }

  /** `agregarMedida`: refused, with nothing changed, when length or width is
      empty; otherwise the line is appended after the existing ones, numbered
      one past the last, and the entry fields are cleared. */
  function AgregarMedida(f: Form): (r: Form)
    ensures f.draft.largo == "" || f.draft.ancho == "" ==> r == f
    ensures f.draft.largo != "" && f.draft.ancho != "" ==>
      && |r.medidas| == |f.medidas| + 1
      && r.medidas[..|f.medidas|] == f.medidas
      && r.medidas[|f.medidas|].linea == |f.medidas| + 1
      && r.medidas[|f.medidas|].cantidad == ParseInt(f.draft.cantidad)
      && r.medidas[|f.medidas|].largo == f.draft.largo
      && r.medidas[|f.medidas|].ancho == f.draft.ancho
      && r.medidas[|f.medidas|].perforacion == f.draft.perforacion
      && r.medidas[|f.medidas|].tipoBordo == f.draft.tipoBordo
      && r.medidas[|f.medidas|].cantoBordo == f.draft.cantoBordo
      && r.medidas[|f.medidas|].descripcion
           == Describe(f.draft.cantidad, f.draft.largo, f.draft.ancho, f.draft.perforacion, f.draft.tipoBordo, f.draft.cantoBordo)
      && r.draft == BlankDraft
      && r.transcripcion == f.transcripcion
    ensures Contiguous(f.medidas) ==> Contiguous(r.medidas)
  {
    if f.draft.largo == "" || f.draft.ancho == "" then f
    else
      var m := f.medidas + [DraftLine(f.draft, |f.medidas| + 1)];
      assert m[..|f.medidas|] == f.medidas;
      f.(medidas := m, draft := BlankDraft)
  }

  /** The description of a line typed by hand reads back to the entry
      fields, when they hold no comma. */
  lemma DraftLineDescribed(d: Draft, linea: nat)
    requires ',' !in d.cantidad && ',' !in d.largo && ',' !in d.ancho
    ensures DecodeDescription(DraftLine(d, linea).descripcion)
      == Some(DescFields(d.cantidad, d.largo, d.ancho, d.perforacion, d.tipoBordo, d.cantoBordo))
  {
  }

  // ---------------------------------------------------------------------
  // Reindexing and removal

  /** Renumbers the lines 1, 2, 3, ... keeping everything else. */
  function Reindex(m: seq<Line>): (r: seq<Line>)
    ensures |r| == |m| && Contiguous(r)
    ensures forall i :: 0 <= i < |m| ==> Content(r[i]) == Content(m[i])
  {
    seq(|m|, i requires 0 <= i < |m| => m[i].(linea := i + 1))
  }

  /** Renumbering lines that are already numbered in order changes
      nothing. */
  lemma ReindexContiguous(m: seq<Line>)
    requires Contiguous(m)
    ensures Reindex(m) == m
  {
    assert forall i :: 0 <= i < |m| ==> Reindex(m)[i] == m[i];
  }

  /** `filter((_, i) => i !== index)`: the lines at every other position. */
  function WithoutIndex(m: seq<Line>, index: int): (r: seq<Line>)
    ensures 0 <= index < |m| ==> r == m[..index] + m[index + 1..]
    ensures !(0 <= index < |m|) ==> r == m
  {
    if m == [] then []
    else
      var rest := WithoutIndex(m[1..], index - 1);
      assert 0 <= index - 1 < |m[1..]| ==> m[1..][..index - 1] + m[1..][index..] == m[1..index] + m[index + 1..];
      assert 1 <= index < |m| ==> [m[0]] + m[1..index] == m[..index];
      if index == 0 then rest else [m[0]] + rest
  }

  /** `eliminarMedida`: the line at `index` is dropped and the rest are
      renumbered; any other index only renumbers. */
  function EliminarMedida(m: seq<Line>, index: int): (r: seq<Line>)
    ensures Contiguous(r)
    ensures 0 <= index < |m| ==> |r| == |m| - 1
    ensures 0 <= index < |m| ==> forall i :: 0 <= i < |r| ==>
      Content(r[i]) == Content(m[if i < index then i else i + 1])
    ensures !(0 <= index < |m|) ==> |r| == |m| && forall i :: 0 <= i < |r| ==> Content(r[i]) == Content(m[i])
    ensures !(0 <= index < |m|) && Contiguous(m) ==> r == m
  {
    ReindexContiguousIf(m);
    Reindex(WithoutIndex(m, index))
  }

  lemma ReindexContiguousIf(m: seq<Line>)
    ensures Contiguous(m) ==> Reindex(m) == m
  {
    if Contiguous(m) {
      ReindexContiguous(m);
    }
  }

  // ---------------------------------------------------------------------
  // Appending extracted measures

  /** The line an extracted measure becomes: its numbers printed as
      `toString` prints them, and the description filled the same way. */
  function LineOf(m: Measure, linea: nat): Line {
    var largo := NumberToString(m.largo);
    var ancho := NumberToString(m.ancho);
    Line(linea, m.cantidad, largo, ancho, m.perforacion, m.tipoBordo, m.cantoBordo,
         Describe(QuantityToString(m.cantidad), largo, ancho, m.perforacion, m.tipoBordo, m.cantoBordo))
  }

  lemma LineNumberOnly(m: Measure, linea: nat)
    ensures Content(LineOf(m, linea)) == Content(LineOf(m, 0))
  {
  }

  function LinesOf(ms: seq<Measure>, linea: nat): (r: seq<Line>)
    ensures |r| == |ms| && forall i :: 0 <= i < |ms| ==> r[i] == LineOf(ms[i], linea)
  {
    MapSeq(m => LineOf(m, linea), ms)
  }

  /** The list after a batch of extracted measures: the earlier lines, then
      one line per measure in order, all renumbered. */
  function AppendBatch(prev: seq<Line>, ms: seq<Measure>): (r: seq<Line>)
    ensures |r| == |prev| + |ms| && Contiguous(r)
    ensures forall i :: 0 <= i < |prev| ==> Content(r[i]) == Content(prev[i])
    ensures Contiguous(prev) ==> r[..|prev|] == prev
    ensures forall j :: 0 <= j < |ms| ==> Content(r[|prev| + j]) == Content(LineOf(ms[j], 0))
  {
    var combined := prev + LinesOf(ms, |prev| + 1);
    var r := Reindex(combined);
    forall j | 0 <= j < |ms| ensures Content(r[|prev| + j]) == Content(LineOf(ms[j], 0)) {
      assert combined[|prev| + j] == LineOf(ms[j], |prev| + 1);
      LineNumberOnly(ms[j], |prev| + 1);
    }
    assert Contiguous(prev) ==> r[..|prev|] == prev by {
      if Contiguous(prev) {
        assert forall i :: 0 <= i < |prev| ==> r[i] == prev[i];
      }
    }
    r
  }

  /** `manejarTranscripcionVoz`: appends the dictated measures and keeps
      the transcription (`transcriptionText || ''`). */
  function ManejarTranscripcionVoz(f: Form, ms: seq<Measure>, text: Option<string>): (r: Form)
    ensures r.medidas == AppendBatch(f.medidas, ms) && r.draft == f.draft
    ensures r.transcripcion == if text.Some? then text.value else ""
  {
    f.(medidas := AppendBatch(f.medidas, ms), transcripcion := if text.Some? then text.value else "")
  }

  /** `manejarAnalisisImagen`: appends the measures read from a picture. */
  function ManejarAnalisisImagen(f: Form, ms: seq<Measure>): (r: Form)
    ensures r.medidas == AppendBatch(f.medidas, ms)
    ensures r.draft == f.draft && r.transcripcion == f.transcripcion
  {
    f.(medidas := AppendBatch(f.medidas, ms))
  }

  /** Appending two batches one after the other is appending them as one. */
  lemma AppendBatchTwice(prev: seq<Line>, a: seq<Measure>, b: seq<Measure>)
    ensures AppendBatch(AppendBatch(prev, a), b) == AppendBatch(prev, a + b)
  {
    var p := |prev|;
    var x := prev + LinesOf(a, p + 1);
    LinesOfAppend(a, b, p + 1);
    assert prev + LinesOf(a + b, p + 1) == x + LinesOf(b, p + 1);
    LinesRenumbered(b, p + |a| + 1, p + 1);
    ReindexedPrefix(x, LinesOf(b, p + |a| + 1), LinesOf(b, p + 1));
    ReindexContent(Reindex(x) + LinesOf(b, p + |a| + 1), x + LinesOf(b, p + 1));
  }

  lemma LinesOfAppend(a: seq<Measure>, b: seq<Measure>, linea: nat)
    ensures LinesOf(a + b, linea) == LinesOf(a, linea) + LinesOf(b, linea)
  {
    MapSeqAppend(m => LineOf(m, linea), a, b);
  }

  /** The lines of a batch differ only in their numbers whatever number they
      start from. */
  lemma LinesRenumbered(ms: seq<Measure>, n1: nat, n2: nat)
    ensures forall i :: 0 <= i < |ms| ==> Content(LinesOf(ms, n1)[i]) == Content(LinesOf(ms, n2)[i])
  {
    forall i | 0 <= i < |ms| ensures Content(LinesOf(ms, n1)[i]) == Content(LinesOf(ms, n2)[i]) {
      LineNumberOnly(ms[i], n1);
      LineNumberOnly(ms[i], n2);
    }
  }

  lemma ReindexedPrefix(x: seq<Line>, y: seq<Line>, z: seq<Line>)
    requires |y| == |z| && forall i :: 0 <= i < |y| ==> Content(y[i]) == Content(z[i])
    ensures |Reindex(x) + y| == |x + z|
    ensures forall i :: 0 <= i < |x| + |y| ==> Content((Reindex(x) + y)[i]) == Content((x + z)[i])
  {
    var u := Reindex(x) + y;
    var v := x + z;
    forall i | 0 <= i < |x| + |y| ensures Content(u[i]) == Content(v[i]) {
      if i < |x| {
        assert u[i] == Reindex(x)[i] && v[i] == x[i];
      } else {
        assert u[i] == y[i - |x|] && v[i] == z[i - |x|];
      }
    }
  }

  /** Renumbering only looks at the contents of the lines. */
  lemma ReindexContent(u: seq<Line>, v: seq<Line>)
    requires |u| == |v| && forall i :: 0 <= i < |u| ==> Content(u[i]) == Content(v[i])
    ensures Reindex(u) == Reindex(v)
  {
    forall i | 0 <= i < |u| ensures Reindex(u)[i] == Reindex(v)[i] {
      SameLine(Reindex(u)[i], Reindex(v)[i]);
    }
  }

  /** Two lines with the same number and the same contents are equal. */
  lemma SameLine(u: Line, v: Line)
    requires Content(u) == Content(v) && u.linea == v.linea
    ensures u == v
  {
  }

  /** The line of an extracted measure is read back to the measure: its
      numbers parse to the measure's values and its description decodes to
      its fields. */
  lemma LineOfRoundTrip(m: Measure, linea: nat)
    ensures ParseFloat(Some(LineOf(m, linea).largo)) == Some(Normalize(m.largo))
    ensures ParseFloat(Some(LineOf(m, linea).ancho)) == Some(Normalize(m.ancho))
    ensures DecodeDescription(LineOf(m, linea).descripcion)
      == Some(DescFields(QuantityToString(m.cantidad), LineOf(m, linea).largo, LineOf(m, linea).ancho,
                         m.perforacion, m.tipoBordo, m.cantoBordo))
    ensures ParseInt(QuantityToString(m.cantidad)) == m.cantidad
    ensures '\n' !in LineOf(m, linea).descripcion
  {
    NumberToStringRoundTrip(m.largo);
    NumberToStringRoundTrip(m.ancho);
    QuantityToStringRoundTrip(m.cantidad);
    var q := QuantityToString(m.cantidad);
    var l := NumberToString(m.largo);
    var a := NumberToString(m.ancho);
    QuantityPlain(m.cantidad);
    NumeralPlain(l);
    NumeralPlain(a);
    assert LineOf(m, linea).descripcion == Describe(q, l, a, m.perforacion, m.tipoBordo, m.cantoBordo);
  }

  lemma NumeralPlain(s: string)
    requires IsNumeral(s)
    ensures ',' !in s && '\n' !in s
  {
  }

  lemma QuantityPlain(q: Quantity)
    ensures ',' !in QuantityToString(q) && '\n' !in QuantityToString(q)
  {
    match q
    case NaN =>
    case Num(n) =>
      if n >= 0 {
        assert IsDigits(NatToString(n));
      } else {
        assert IsDigits(NatToString(-n));
      }
  }

  // ---------------------------------------------------------------------
  // Totals

  /** The sum of the quantities when every one is a number. */
  function SumOfQuantities(m: seq<Line>): int
    requires forall i :: 0 <= i < |m| ==> m[i].cantidad.Num?
  {
    if m == [] then 0 else m[0].cantidad.value + SumOfQuantities(m[1..])
  }

  /** `medidas.reduce((total, medida) => total + medida.cantidad, 0)`: `NaN`
      as soon as one line's quantity is, and otherwise the sum of the
      quantities. */
  function TotalPiezas(m: seq<Line>): (r: Quantity)
    ensures r.NaN? <==> exists i :: 0 <= i < |m| && m[i].cantidad.NaN?
    ensures (forall i :: 0 <= i < |m| ==> m[i].cantidad.Num?) ==> r == Num(SumOfQuantities(m))
  {
    TotalFromMeaning(0, m);
    TotalFrom(Num(0), m)
  }

  function TotalFrom(acc: Quantity, m: seq<Line>): Quantity
    decreases |m|
  {
    if m == [] then acc else TotalFrom(Plus(acc, m[0].cantidad), m[1..])
  }

  lemma {:induction false} TotalFromMeaning(acc: int, m: seq<Line>)
    ensures TotalFrom(Num(acc), m).NaN? <==> exists i :: 0 <= i < |m| && m[i].cantidad.NaN?
    ensures (forall i :: 0 <= i < |m| ==> m[i].cantidad.Num?) ==> TotalFrom(Num(acc), m) == Num(acc + SumOfQuantities(m))
    decreases |m|
  {
    if m != [] {
      if m[0].cantidad.NaN? {
        TotalFromNaN(m[1..]);
      } else {
        TotalFromMeaning(acc + m[0].cantidad.value, m[1..]);
        assert forall i :: 1 <= i < |m| ==> m[1..][i - 1] == m[i];
      }
    }
  }

  lemma {:induction false} TotalFromNaN(m: seq<Line>)
    ensures TotalFrom(NaN, m) == NaN
    decreases |m|
  {
    if m != [] {
      TotalFromNaN(m[1..]);
    }
  }

  /** Renumbering does not change the total, and the total of a batch
      appended to the list is added to the earlier total. */
  lemma {:induction false} TotalPiezasAppendBatch(prev: seq<Line>, ms: seq<Measure>)
    ensures TotalPiezas(AppendBatch(prev, ms)) == Plus(TotalPiezas(prev), TotalPiezas(LinesOf(ms, 0)))
  {
    var r := AppendBatch(prev, ms);
    var added := LinesOf(ms, 0);
    assert forall i :: 0 <= i < |r| ==> r[i].cantidad == (prev + added)[i].cantidad;
    TotalSameQuantities(r, prev + added);
    TotalAppend(prev, added);
  }

  lemma {:induction false} TotalSameQuantities(a: seq<Line>, b: seq<Line>)
    requires |a| == |b| && forall i :: 0 <= i < |a| ==> a[i].cantidad == b[i].cantidad
    ensures TotalPiezas(a) == TotalPiezas(b)
  {
    TotalFromSame(Num(0), a, b);
  }

  lemma {:induction false} TotalFromSame(acc: Quantity, a: seq<Line>, b: seq<Line>)
    requires |a| == |b| && forall i :: 0 <= i < |a| ==> a[i].cantidad == b[i].cantidad
    ensures TotalFrom(acc, a) == TotalFrom(acc, b)
    decreases |a|
  {
    if a != [] {
      TotalFromSame(Plus(acc, a[0].cantidad), a[1..], b[1..]);
    }
  }

  /** The total of two runs of lines is the sum of their totals. */
  lemma {:induction false} TotalAppend(a: seq<Line>, b: seq<Line>)
    ensures TotalPiezas(a + b) == Plus(TotalPiezas(a), TotalPiezas(b))
  {
    TotalFromAppend(Num(0), a, b);
    TotalFromShift(TotalPiezas(a), b);
  }

  lemma {:induction false} TotalFromAppend(acc: Quantity, a: seq<Line>, b: seq<Line>)
    ensures TotalFrom(acc, a + b) == TotalFrom(TotalFrom(acc, a), b)
    decreases |a|
  {
    if a == [] {
      assert a + b == b;
    } else {
      assert (a + b)[1..] == a[1..] + b;
      TotalFromAppend(Plus(acc, a[0].cantidad), a[1..], b);
    }
  }

  /** Starting the fold from `acc` adds `acc` to the total. */
  lemma {:induction false} TotalFromShift(acc: Quantity, m: seq<Line>)
    ensures TotalFrom(acc, m) == Plus(acc, TotalFrom(Num(0), m))
    decreases |m|
  {
    if m != [] {
      TotalFromShift(Plus(acc, m[0].cantidad), m[1..]);
      TotalFromShift(Plus(Num(0), m[0].cantidad), m[1..]);
    }
  }

  // ---------------------------------------------------------------------
  // The form over a run of events

  datatype Event =
    | EditDraft(draft: Draft)
    | AddClicked
    | RemoveClicked(index: int)
    | Transcribed(measures: seq<Measure>, text: Option<string>)
    | ImageAnalysed(measures: seq<Measure>)

  function Step(f: Form, e: Event): Form {
    match e
    case EditDraft(d) => f.(draft := d)
    case AddClicked => AgregarMedida(f)
    case RemoveClicked(i) => f.(medidas := EliminarMedida(f.medidas, i))
    case Transcribed(ms, text) => ManejarTranscripcionVoz(f, ms, text)
    case ImageAnalysed(ms) => ManejarAnalisisImagen(f, ms)
  }

  function Run(f: Form, es: seq<Event>): Form
    decreases |es|
  {
    if es == [] then f else Run(Step(f, es[0]), es[1..])
  }

  const InitialForm: Form := Form([], BlankDraft, "")

  /** Whatever the user does, the lines stay numbered 1, 2, 3, ... in list
      order; in particular the number a line added by hand receives, one
      past the list's length, is its position. */
  lemma {:induction false} ContiguityInvariant(f: Form, es: seq<Event>)
    requires Contiguous(f.medidas)
    ensures Contiguous(Run(f, es).medidas)
    decreases |es|
  {
    if es != [] {
      ContiguityInvariant(Step(f, es[0]), es[1..]);
    }
  }

  lemma NumberedFromStart(es: seq<Event>)
    ensures Contiguous(Run(InitialForm, es).medidas)
  {
    ContiguityInvariant(InitialForm, es);
  }
}
