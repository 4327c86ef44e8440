/** The measure record produced by the two text extractors and the value sets
    of its enumerated fields, with the identifiers the application uses. */
module Measures {
  import opened Numerals

  /** Edge banding (`tipoBordo`): which sides of the panel get banded. */
  datatype Bordo = OneLong | OneLongOneShort | OneLongTwoShort | FourSides

  function BordoId(b: Bordo): string {
    match b
    case OneLong => "1-largo"
    case OneLongOneShort => "1-largo-1-corto"
    case OneLongTwoShort => "1-largo-2-cortos"
    case FourSides => "4-lados"
  }

  /** Drilling (`perforacion`). */
  datatype Perforacion = Ninguna | PorLargo | PorAncho

  function PerforacionId(p: Perforacion): string {
    match p
    case Ninguna => "ninguna"
    case PorLargo => "largo"
    case PorAncho => "ancho"
  }

  /** Edge finish (`cantoBordo`). */
  datatype Canto = Suave | Duro

  function CantoId(c: Canto): string {
    match c
    case Suave => "canto-suave"
    case Duro => "canto-duro"
  }

  /** One extracted measure: `{cantidad, largo, ancho, tipoBordo,
      perforacion, cantoBordo}`. `cantidad` is what `parseInt` returned. */
  datatype Measure = Measure(
    cantidad: Quantity,
    largo: Dec,
    ancho: Dec,
    tipoBordo: Bordo,
    perforacion: Perforacion,
    cantoBordo: Canto)
}
