/** Sending a quotation (`enviarCotizacion`): the six required header fields
    must be filled in and the list must hold a line; the payload then
    carries the header, the descriptions as one text and as a list, the
    lines themselves and the two totals. The network call is not modelled. */
module Submission {
  import opened Options
  import opened JsText
  import opened Numerals
  import opened Measures
  import opened Quotation

  datatype BasicInfo = BasicInfo(
    tipoPlancha: string,
    color: string,
    vendedora: string,
    comentarios: string,
    nombreCliente: string,
    telefono: string,
    direccionTaller: string,
    entrega: string,
    fecha: string)

  datatype Payload = Payload(
    tipoPlancha: string,
    color: string,
    vendedora: string,
    nombreCliente: string,
    telefono: string,
    direccionTaller: string,
    entrega: string,
    fecha: string,
    medidasTexto: string,
    medidasArray: seq<string>,
    medidasEstructuradas: seq<Line>,
    totalMedidas: nat,
    totalPiezas: Quantity,
    comentarios: string,
    userId: Option<string>)

  datatype SubmitError = MissingBasicInfo | NoMeasures

  /** The header fields that may not be empty; comments, delivery mode and
      date are not checked. */
  predicate HasBasicInfo(info: BasicInfo) {
    && info.tipoPlancha != "" && info.color != "" && info.vendedora != ""
    && info.nombreCliente != "" && info.telefono != "" && info.direccionTaller != ""
  }

  function Descriptions(m: seq<Line>): (r: seq<string>)
    ensures |r| == |m| && forall i :: 0 <= i < |m| ==> r[i] == m[i].descripcion
  {
    seq(|m|, i requires 0 <= i < |m| => m[i].descripcion)
  }

  /** The payload sent for a quotation, or why it is refused; a missing
      header field is reported before an empty list. */
  function BuildPayload(info: BasicInfo, medidas: seq<Line>, userId: Option<string>): (r: Result<Payload, SubmitError>)
    ensures r == Failure(MissingBasicInfo) <==> !HasBasicInfo(info)
    ensures r == Failure(NoMeasures) <==> HasBasicInfo(info) && medidas == []
    ensures r.Success? ==>
      && r.value.tipoPlancha == info.tipoPlancha && r.value.color == info.color
      && r.value.vendedora == info.vendedora && r.value.nombreCliente == info.nombreCliente
      && r.value.telefono == info.telefono && r.value.direccionTaller == info.direccionTaller
      && r.value.medidasTexto == Join(Descriptions(medidas), "\n")
      && r.value.medidasArray == Descriptions(medidas)
      && r.value.medidasEstructuradas == medidas
      && r.value.totalMedidas == |medidas| && |medidas| > 0
      && r.value.totalPiezas == TotalPiezas(medidas)
      && r.value.comentarios == info.comentarios
      && r.value.entrega == info.entrega && r.value.fecha == info.fecha
      && r.value.userId == userId
  {
    if !HasBasicInfo(info) then Failure(MissingBasicInfo)
    else if |medidas| == 0 then Failure(NoMeasures)
    else
      var descs := Descriptions(medidas);
      Success(Payload(
        info.tipoPlancha, info.color, info.vendedora, info.nombreCliente, info.telefono,
        info.direccionTaller, info.entrega, info.fecha,
        Join(descs, "\n"), descs, medidas, |medidas|, TotalPiezas(medidas),
        info.comentarios, userId))
  }

  /** The text form of the descriptions is the list form, one per line:
      splitting it at line breaks gives the list back, as long as no
      description holds a line break itself. */
  lemma PayloadTextIsList(info: BasicInfo, medidas: seq<Line>, userId: Option<string>)
    requires BuildPayload(info, medidas, userId).Success?
    requires forall i :: 0 <= i < |medidas| ==> '\n' !in medidas[i].descripcion
    ensures var p := BuildPayload(info, medidas, userId).value;
      Split(p.medidasTexto, '\n') == p.medidasArray
  {
    SplitJoin(Descriptions(medidas), '\n');
  }

  /** Lines that all come from extracted measures have single-line
      descriptions, so their payload text splits back into its list. */
  lemma ExtractedPayloadSplits(info: BasicInfo, ms: seq<Measure>, userId: Option<string>)
    requires HasBasicInfo(info) && ms != []
    ensures var medidas := AppendBatch([], ms);
      && BuildPayload(info, medidas, userId).Success?
      && Split(BuildPayload(info, medidas, userId).value.medidasTexto, '\n')
         == BuildPayload(info, medidas, userId).value.medidasArray
  {
    var medidas := AppendBatch([], ms);
    forall i | 0 <= i < |medidas| ensures '\n' !in medidas[i].descripcion {
      SingleLine(medidas[i], ms[i]);
    }
    PayloadTextIsList(info, medidas, userId);
  }

  lemma SingleLine(l: Line, m: Measure)
    requires Content(l) == Content(LineOf(m, 0))
    ensures '\n' !in l.descripcion
  {
    assert l.descripcion == LineOf(m, 0).descripcion;
    LineOfRoundTrip(m, 0);
  }
}
