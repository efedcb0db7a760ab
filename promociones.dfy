/**
 * The promotion helpers of src/features/promociones/hooks/usePromociones.tsx:
 * the local date text, the status of a promotion on a given day, and the
 * conversion of the form's detail rows into the details sent to the API.
 * Today's date is a parameter (the hook reads the clock).
 */
module UsePromociones {
  import opened Common
  import opened Text

  /** String(n).padStart(2, '0'). */
  function Pad2(n: nat): (r: string)
    ensures n < 100 ==> r == FixedDigits(n, 2)
    ensures n >= 10 ==> r == NatToString(n)
  {
    if n < 10 then
      assert FixedDigits(n, 2) == ['0'] + NatToString(n) by {
        assert FixedDigits(n / 10, 1) == [DigitChar(0)];
      }
      "0" + NatToString(n)
    else if n < 100 then
      NatToStringFixed(n, 2);
      NatToString(n)
    else NatToString(n)
  }

  /** getLocalDateString: `year-month-day`, month and day padded to two
      digits. */
  function LocalDateString(year: nat, month: nat, day: nat): (r: string)
    ensures 1000 <= year < 10000 && month < 100 && day < 100 ==>
              r == FixedDigits(year, 4) + "-" + FixedDigits(month, 2) + "-" + FixedDigits(day, 2)
  {
    var texto := NatToString(year) + "-" + Pad2(month) + "-" + Pad2(day);
    if 1000 <= year < 10000 then
      NatToStringFixed(year, 4);
      texto
    else texto
  }

  /** The shape of every date text of a four-digit year: ten characters,
      dashes at positions 4 and 7, digits elsewhere. */
  lemma DateShape(year: nat, month: nat, day: nat)
    requires 1000 <= year < 10000 && month < 100 && day < 100
    ensures var r := LocalDateString(year, month, day);
      |r| == 10 && r[4] == '-' && r[7] == '-'
      && forall i :: 0 <= i < 10 && i != 4 && i != 7 ==> IsDigit(r[i])
  {
  }

  /** Texts made of parts of equal lengths compare on the first parts and,
      where those agree, on the rest. */
  lemma PartsOrder(x: string, y: string, x': string, y': string)
    requires |x| == |x'|
    ensures Less(x + y, x' + y') <==> Less(x, x') || (x == x' && Less(y, y'))
    ensures x + y == x' + y' <==> x == x' && y == y'
  {
    LessConcat(x, y, x', y');
    if x + y == x' + y' {
      assert x == (x + y)[..|x|] && x' == (x' + y')[..|x|];
      assert y == (x + y)[|x|..] && y' == (x' + y')[|x|..];
    }
  }

  /** The order of the `-dd` ending of a date text. */
  lemma DashedOrder(a: nat, a': nat, rest: string, rest': string)
    requires a < 100 && a' < 100
    ensures Less("-" + FixedDigits(a, 2) + rest, "-" + FixedDigits(a', 2) + rest') <==>
              a < a' || (a == a' && Less(rest, rest'))
    ensures "-" + FixedDigits(a, 2) + rest == "-" + FixedDigits(a', 2) + rest' <==>
              a == a' && rest == rest'
  {
    var x, x' := FixedDigits(a, 2), FixedDigits(a', 2);
    FixedDigitsLess(a, a', 2);
    LessIrreflexive("-");
    assert "-" + x + rest == "-" + (x + rest) && "-" + x' + rest' == "-" + (x' + rest');
    PartsOrder("-", x + rest, "-", x' + rest');
    PartsOrder(x, rest, x', rest');
  }

  /** A date text of a four-digit year, split as its year and the
      `-mm` and `-dd` parts. */
  lemma DateParts(y: nat, m: nat, d: nat)
    requires 1000 <= y < 10000 && m < 100 && d < 100
    ensures LocalDateString(y, m, d)
            == FixedDigits(y, 4) + ("-" + FixedDigits(m, 2) + ("-" + FixedDigits(d, 2) + ""))
  {
    var ys, ms, ds := FixedDigits(y, 4), FixedDigits(m, 2), FixedDigits(d, 2);
    assert ys + "-" + ms + "-" + ds == ys + ("-" + ms + ("-" + ds + ""));
  }

  /** For four-digit years, the string order of date texts is the calendar
      order of (year, month, day), and equal texts are equal dates. */
  lemma DateOrder(y: nat, m: nat, d: nat, y': nat, m': nat, d': nat)
    requires 1000 <= y < 10000 && m < 100 && d < 100
    requires 1000 <= y' < 10000 && m' < 100 && d' < 100
    ensures Less(LocalDateString(y, m, d), LocalDateString(y', m', d')) <==>
              y < y' || (y == y' && (m < m' || (m == m' && d < d')))
    ensures LocalDateString(y, m, d) == LocalDateString(y', m', d') <==> y == y' && m == m' && d == d'
  {
    DateParts(y, m, d);
    DateParts(y', m', d');
    var dia, dia' := "-" + FixedDigits(d, 2) + "", "-" + FixedDigits(d', 2) + "";
    var tail, tail' := "-" + FixedDigits(m, 2) + dia, "-" + FixedDigits(m', 2) + dia';
    FixedDigitsLess(y, y', 4);
    PartsOrder(FixedDigits(y, 4), tail, FixedDigits(y', 4), tail');
    DashedOrder(m, m', dia, dia');
    DashedOrder(d, d', "", "");
    LessIrreflexive("");
  }

  /** slice(0, 10). */
  function Prefix10(s: string): (r: string)
    ensures |r| == if |s| < 10 then |s| else 10
    ensures s == r + s[|r|..]
  {
    if |s| < 10 then s else s[..10]
  }

  datatype EstadoPromocion = Programada | Activa | Vencida

  /** getEstadoPromocion on the day whose text is `hoy`: the dates are the
      first ten characters of fechaInicio and fechaFin, compared as
      strings. */
  function Estado(hoy: string, fechaInicio: string, fechaFin: string): (r: EstadoPromocion)
    ensures r == Programada <==> Less(hoy, Prefix10(fechaInicio))
    ensures r == Activa <==> !Less(hoy, Prefix10(fechaInicio)) && !Less(Prefix10(fechaFin), hoy)
  {
    var inicio, fin := Prefix10(fechaInicio), Prefix10(fechaFin);
    if Less(hoy, inicio) then Programada
    else if !Less(hoy, inicio) && !Less(fin, hoy) then Activa
    else Vencida
  }

  /** A promotion is active exactly on the days from its start to its end,
      both included. */
  lemma ActivaEntreFechas(hoy: string, fechaInicio: string, fechaFin: string)
    ensures Estado(hoy, fechaInicio, fechaFin) == Activa <==>
              (hoy == Prefix10(fechaInicio) || Less(Prefix10(fechaInicio), hoy))
              && (hoy == Prefix10(fechaFin) || Less(hoy, Prefix10(fechaFin)))
  {
    var inicio, fin := Prefix10(fechaInicio), Prefix10(fechaFin);
    LessTotal(hoy, inicio);
    LessTotal(hoy, fin);
    LessIrreflexive(hoy);
    if Less(inicio, hoy) {
      LessAsymmetric(inicio, hoy);
    }
    if Less(hoy, fin) {
      LessAsymmetric(hoy, fin);
    }
  }

  /** A promotion that ends before it starts is never active. */
  lemma NuncaActivaSiTerminaAntes(hoy: string, fechaInicio: string, fechaFin: string)
    requires Less(Prefix10(fechaFin), Prefix10(fechaInicio))
    ensures Estado(hoy, fechaInicio, fechaFin) != Activa
  {
    var inicio, fin := Prefix10(fechaInicio), Prefix10(fechaFin);
    LessTotal(hoy, inicio);
    if Less(inicio, hoy) {
      LessTransitive(fin, inicio, hoy);
    }
  }

  /** As days pass a promotion only moves forward: a later day is not
      Programada unless the earlier one was, and an earlier Vencida day
      stays Vencida. */
  lemma EstadoAvanza(hoy: string, luego: string, fechaInicio: string, fechaFin: string)
    requires Less(hoy, luego)
    ensures Estado(luego, fechaInicio, fechaFin) == Programada ==> Estado(hoy, fechaInicio, fechaFin) == Programada
    ensures Estado(hoy, fechaInicio, fechaFin) == Vencida ==> Estado(luego, fechaInicio, fechaFin) == Vencida
  {
    var inicio, fin := Prefix10(fechaInicio), Prefix10(fechaFin);
    if Less(luego, inicio) {
      LessTransitive(hoy, luego, inicio);
    }
    if Less(fin, hoy) {
      LessTransitive(fin, hoy, luego);
    }
    LessTotal(hoy, inicio);
    if Less(inicio, hoy) {
      LessTransitive(inicio, hoy, luego);
    }
    if Less(inicio, luego) {
      LessAsymmetric(inicio, luego);
    }
  }

  /** The kind of article a form row refers to (the `tipo` select). */
  datatype Tipo = Producto | Insumo

  /** A form detail row: its kind, the two article selects, and the
      quantity (a number: the input's value goes through Number()). */
  datatype DetalleUI = DetalleUI(
    tipo: Tipo,
    articuloManufacturadoId: IdText,
    articuloInsumoId: IdText,
    cantidad: JsNumber)

  /** PromocionDetalleApi: the quantity and the `{ id }` of at most one
      article of each kind. */
  datatype DetalleApi = DetalleApi(
    cantidad: JsNumber,
    articuloManufacturado: Option<int>,
    articuloInsumo: Option<int>)

  /** The detail built for one row: only the select matching the row's
      kind is read, and only when it holds an id. */
  function ADetalleApi(d: DetalleUI): (a: DetalleApi)
    ensures a.cantidad == d.cantidad
    ensures a.articuloManufacturado.Some? <==> d.tipo == Producto && d.articuloManufacturadoId.IdOf?
    ensures a.articuloInsumo.Some? <==> d.tipo == Insumo && d.articuloInsumoId.IdOf?
    ensures a.articuloManufacturado.Some? ==> a.articuloManufacturado.value == d.articuloManufacturadoId.id
    ensures a.articuloInsumo.Some? ==> a.articuloInsumo.value == d.articuloInsumoId.id
  {
    if d.tipo == Producto && IdTruthy(d.articuloManufacturadoId) then
      DetalleApi(d.cantidad, Some(IdNumber(d.articuloManufacturadoId)), None)
    else if d.tipo == Insumo && IdTruthy(d.articuloInsumoId) then
      DetalleApi(d.cantidad, None, Some(IdNumber(d.articuloInsumoId)))
    else DetalleApi(d.cantidad, None, None)
  }

  predicate TieneArticulo(a: DetalleApi)
  {
    a.articuloManufacturado.Some? || a.articuloInsumo.Some?
  }

  /** Whether a row names the article of its own kind. */
  predicate Seleccionado(d: DetalleUI)
  {
    (d.tipo == Producto && d.articuloManufacturadoId.IdOf?)
    || (d.tipo == Insumo && d.articuloInsumoId.IdOf?)
  }

  /** formatearDetallesParaAPI: map each row, then keep the details that
      name an article. */
  function FormatearDetalles(detalles: seq<DetalleUI>): (r: seq<DetalleApi>)
    ensures |r| <= |detalles|
    ensures forall i :: 0 <= i < |r| ==>
              (r[i].articuloManufacturado.Some? <==> r[i].articuloInsumo.None?)
  {
    Filter(Map(detalles, ADetalleApi), TieneArticulo)
  }

  /** The details sent are those of the rows that name the article of
      their kind, in row order, each with that row's quantity and the id
      from the matching select only. */
  lemma FormatearConservaFilas(detalles: seq<DetalleUI>)
    ensures FormatearDetalles(detalles) == Map(Filter(detalles, Seleccionado), ADetalleApi)
  {
    MapThenFilter(detalles, ADetalleApi, TieneArticulo, Seleccionado);
  }

  /** Hence nothing is dropped when every row names its article. */
  lemma FormatearSinPerdidas(detalles: seq<DetalleUI>)
    requires forall i :: 0 <= i < |detalles| ==> Seleccionado(detalles[i])
    ensures |FormatearDetalles(detalles)| == |detalles|
  {
    FormatearConservaFilas(detalles);
    FilterKeepsAll(detalles, Seleccionado);
  }
}
