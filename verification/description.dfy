/** The one-line description a quotation line carries, e.g.
    "Cant: 2, L120, A60, P-ninguna, Bordo-1 Largo y 2 Cortos, B-Suave",
    and a reader that takes such a line apart again. */
module Description {
  import opened Options
  import opened JsText
  import opened Measures

  /** `bordoTexto`: the readable name of each banding pattern. */
  function BordoLabel(b: Bordo): string {
    match b
    case OneLong => "1 Largo"
    case OneLongOneShort => "1 Largo y 1 Corto"
    case OneLongTwoShort => "1 Largo y 2 Cortos"
    case FourSides => "4 Lados"
  }

  /** The finish word: "Suave" for the soft edge, "Duro" otherwise. */
  function FinishLabel(c: Canto): string {
    if c == Suave then "Suave" else "Duro"
  }

  /** The description of a line: the template filled with the quantity,
      length and width as text and the three choices. It reads back to the
      fields it was written from as long as the three texts hold no comma,
      and it is a single line as long as they hold no line break. */
  function Describe(cantidad: string, largo: string, ancho: string, p: Perforacion, b: Bordo, c: Canto): (r: string)
    ensures ',' !in cantidad && ',' !in largo && ',' !in ancho ==>
      DecodeDescription(r) == Some(DescFields(cantidad, largo, ancho, p, b, c))
    ensures '\n' !in cantidad && '\n' !in largo && '\n' !in ancho ==> '\n' !in r
  {
    TemplateRoundTrip(cantidad, largo, ancho, p, b, c);
    TemplateSingleLine(cantidad, largo, ancho, p, b, c);
    Template(cantidad, largo, ancho, p, b, c)
  }

  /** "Cant: 2, L120, A60, P-ninguna, Bordo-4 Lados, B-Suave" */
  function Template(cantidad: string, largo: string, ancho: string, p: Perforacion, b: Bordo, c: Canto): string {
    "Cant: " + cantidad + ", L" + largo + ", A" + ancho + ", P-" + PerforacionId(p)
    + ", Bordo-" + BordoLabel(b) + ", B-" + FinishLabel(c)
  }

  /** What a description records. */
  datatype DescFields = DescFields(
    cantidad: string, largo: string, ancho: string,
    perforacion: Perforacion, tipoBordo: Bordo, cantoBordo: Canto)

  function StripPrefix(s: string, prefix: string): (r: Option<string>)
    ensures r.Some? <==> StartsWith(s, prefix)
    ensures r.Some? ==> prefix + r.value == s
  {
    if StartsWith(s, prefix) then Some(s[|prefix|..]) else None
  }

  function PerforacionOfId(s: string): Option<Perforacion> {
    if s == "ninguna" then Some(Ninguna)
    else if s == "largo" then Some(PorLargo)
    else if s == "ancho" then Some(PorAncho)
    else None
  }

  function BordoOfLabel(s: string): Option<Bordo> {
    if s == "1 Largo" then Some(OneLong)
    else if s == "1 Largo y 1 Corto" then Some(OneLongOneShort)
    else if s == "1 Largo y 2 Cortos" then Some(OneLongTwoShort)
    else if s == "4 Lados" then Some(FourSides)
    else None
  }

  function CantoOfLabel(s: string): Option<Canto> {
    if s == "Suave" then Some(Suave)
    else if s == "Duro" then Some(Duro)
    else None
  }

  /** Reads a description back: six comma-separated parts, each with its
      label; `None` for anything else. */
  function DecodeDescription(s: string): Option<DescFields> {
    DecodeParts(Split(s, ','))
  }

  function DecodeParts(parts: seq<string>): Option<DescFields> {
    if |parts| != 6 then None
    else
      var q := StripPrefix(parts[0], "Cant: ");
      var l := StripPrefix(parts[1], " L");
      var a := StripPrefix(parts[2], " A");
      var p := StripPrefix(parts[3], " P-");
      var b := StripPrefix(parts[4], " Bordo-");
      var c := StripPrefix(parts[5], " B-");
      if q.None? || l.None? || a.None? || p.None? || b.None? || c.None? then None
      else
        var perforacion := PerforacionOfId(p.value);
        var bordo := BordoOfLabel(b.value);
        var canto := CantoOfLabel(c.value);
        if perforacion.None? || bordo.None? || canto.None? then None
        else Some(DescFields(q.value, l.value, a.value, perforacion.value, bordo.value, canto.value))
  }

  lemma StripOwnPrefix(prefix: string, s: string)
    ensures StripPrefix(prefix + s, prefix) == Some(s)
  {
    assert (prefix + s)[..|prefix|] == prefix;
    assert (prefix + s)[|prefix|..] == s;
  }

  /** The six parts of a description, without their separating commas. */
  function Parts(cantidad: string, largo: string, ancho: string, p: Perforacion, b: Bordo, c: Canto): seq<string> {
    ["Cant: " + cantidad, " L" + largo, " A" + ancho, " P-" + PerforacionId(p),
     " Bordo-" + BordoLabel(b), " B-" + FinishLabel(c)]
  }

  lemma TemplateIsJoin(cantidad: string, largo: string, ancho: string, p: Perforacion, b: Bordo, c: Canto)
    ensures Template(cantidad, largo, ancho, p, b, c) == Join(Parts(cantidad, largo, ancho, p, b, c), ",")
  {
    var ps := Parts(cantidad, largo, ancho, p, b, c);
    JoinSix(ps[0], ps[1], ps[2], ps[3], ps[4], ps[5], ",");
    assert ps == [ps[0], ps[1], ps[2], ps[3], ps[4], ps[5]];
    var d0 := "Cant: " + cantidad;
    var d1 := d0 + ", L" + largo;
    var d2 := d1 + ", A" + ancho;
    var d3 := d2 + ", P-" + PerforacionId(p);
    var d4 := d3 + ", Bordo-" + BordoLabel(b);
    var d5 := d4 + ", B-" + FinishLabel(c);
    SplitLabel(d0, ", L", " L", largo);
    SplitLabel(d1, ", A", " A", ancho);
    SplitLabel(d2, ", P-", " P-", PerforacionId(p));
    SplitLabel(d3, ", Bordo-", " Bordo-", BordoLabel(b));
    SplitLabel(d4, ", B-", " B-", FinishLabel(c));
  }

  /** Writing ", L" after a part is writing the separator and then the next
      part's label. */
  lemma SplitLabel(x: string, lead: string, tail: string, v: string)
    requires |lead| > 0 && lead[0] == ',' && lead[1..] == tail
    ensures x + lead + v == x + "," + (tail + v)
  {
    assert lead == "," + tail;
  }

  lemma JoinSix(a0: string, a1: string, a2: string, a3: string, a4: string, a5: string, sep: string)
    ensures Join([a0, a1, a2, a3, a4, a5], sep) == a0 + sep + a1 + sep + a2 + sep + a3 + sep + a4 + sep + a5
  {
    var ps := [a0, a1, a2, a3, a4, a5];
    assert ps[5..] == [a5];
    assert ps[4..][1..] == ps[5..];
    assert ps[3..][1..] == ps[4..];
    assert ps[2..][1..] == ps[3..];
    assert ps[1..][1..] == ps[2..];
    assert Join(ps[4..], sep) == a4 + sep + a5;
    assert Join(ps[3..], sep) == a3 + sep + (a4 + sep + a5);
    assert Join(ps[2..], sep) == a2 + sep + (a3 + sep + (a4 + sep + a5));
    assert Join(ps[1..], sep) == a1 + sep + (a2 + sep + (a3 + sep + (a4 + sep + a5)));
  }

  /** The labels carry neither commas nor line breaks. */
  lemma LabelsPlain(p: Perforacion, b: Bordo, c: Canto)
    ensures ',' !in PerforacionId(p) && '\n' !in PerforacionId(p)
    ensures ',' !in BordoLabel(b) && '\n' !in BordoLabel(b)
    ensures ',' !in FinishLabel(c) && '\n' !in FinishLabel(c)
    ensures PerforacionOfId(PerforacionId(p)) == Some(p)
    ensures BordoOfLabel(BordoLabel(b)) == Some(b)
    ensures CantoOfLabel(FinishLabel(c)) == Some(c)
  {
    PerforacionLabelPlain(p);
    BordoLabelPlain(b);
    FinishLabelPlain(c);
  }

  lemma PerforacionLabelPlain(p: Perforacion)
    ensures ',' !in PerforacionId(p) && '\n' !in PerforacionId(p)
    ensures PerforacionOfId(PerforacionId(p)) == Some(p)
  {
  }

  lemma BordoLabelPlain(b: Bordo)
    ensures ',' !in BordoLabel(b) && '\n' !in BordoLabel(b)
    ensures BordoOfLabel(BordoLabel(b)) == Some(b)
  {
  }

  lemma FinishLabelPlain(c: Canto)
    ensures ',' !in FinishLabel(c) && '\n' !in FinishLabel(c)
    ensures CantoOfLabel(FinishLabel(c)) == Some(c)
  {
  }

  /** The template is read back to the fields it was written from, as long
      as the quantity, length and width texts hold no comma. */
  lemma TemplateRoundTrip(cantidad: string, largo: string, ancho: string, p: Perforacion, b: Bordo, c: Canto)
    ensures ',' !in cantidad && ',' !in largo && ',' !in ancho ==>
      DecodeDescription(Template(cantidad, largo, ancho, p, b, c)) == Some(DescFields(cantidad, largo, ancho, p, b, c))
  {
    if ',' !in cantidad && ',' !in largo && ',' !in ancho {
      var ps := Parts(cantidad, largo, ancho, p, b, c);
      TemplateIsJoin(cantidad, largo, ancho, p, b, c);
      PartsPlain(cantidad, largo, ancho, p, b, c);
      SplitJoin(ps, ',');
      DecodeOwnParts(cantidad, largo, ancho, p, b, c);
    }
  }

  lemma PartsPlain(cantidad: string, largo: string, ancho: string, p: Perforacion, b: Bordo, c: Canto)
    requires ',' !in cantidad && ',' !in largo && ',' !in ancho
    ensures forall i :: 0 <= i < 6 ==> ',' !in Parts(cantidad, largo, ancho, p, b, c)[i]
  {
    var ps := Parts(cantidad, largo, ancho, p, b, c);
    LabelsPlain(p, b, c);
    assert ',' !in ps[0] && ',' !in ps[1] && ',' !in ps[2];
    assert ',' !in ps[3] && ',' !in ps[4] && ',' !in ps[5];
  }

  lemma DecodeOwnParts(cantidad: string, largo: string, ancho: string, p: Perforacion, b: Bordo, c: Canto)
    ensures DecodeParts(Parts(cantidad, largo, ancho, p, b, c)) == Some(DescFields(cantidad, largo, ancho, p, b, c))
  {
    LabelsPlain(p, b, c);
    StripOwnPrefix("Cant: ", cantidad);
    StripOwnPrefix(" L", largo);
    StripOwnPrefix(" A", ancho);
    StripOwnPrefix(" P-", PerforacionId(p));
    StripOwnPrefix(" Bordo-", BordoLabel(b));
    StripOwnPrefix(" B-", FinishLabel(c));
  }

  /** The template holds no line break when its three texts hold none. */
  lemma TemplateSingleLine(cantidad: string, largo: string, ancho: string, p: Perforacion, b: Bordo, c: Canto)
    ensures '\n' !in cantidad && '\n' !in largo && '\n' !in ancho ==> '\n' !in Template(cantidad, largo, ancho, p, b, c)
  {
    if '\n' !in cantidad && '\n' !in largo && '\n' !in ancho {
      var ps := Parts(cantidad, largo, ancho, p, b, c);
      TemplateIsJoin(cantidad, largo, ancho, p, b, c);
      LabelsPlain(p, b, c);
      assert '\n' !in ps[0] && '\n' !in ps[1] && '\n' !in ps[2];
      assert '\n' !in ps[3] && '\n' !in ps[4] && '\n' !in ps[5];
      JoinFree(ps, ",", '\n');
    }
  }
}
