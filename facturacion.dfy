/** The invoicing business rules (`ManagerFacturacion`): building a temporary
    invoice across several calls, recalculating its totals, and committing it
    with numbers drawn from the two counters of the parameter table. */
module Facturacion {
  import opened Wrappers
  import opened Texto
  import opened Entidades
  import opened Persistencia

  /** Names of the rows of the parameter table the workflow uses. */
  const VALOR_IVA: string := "valor_iva"
  const CONT_FACTURAS: string := "cont_facturas"
  const CONT_FACTURAS_DET: string := "cont_facturas_det"

  /** The exceptions the workflow raises, by cause. */
  datatype Error =
    | FacturaNula                          // no header (a null reference)
    | CedulaNoEspecificada                 // null or empty customer id
    | ClienteNoEncontrado                  // no customer with that id
    | CodigoProductoInvalido               // null or negative product code
    | CantidadInvalida                     // null or non-positive quantity
    | ProductoNoEncontrado                 // no product with that code
    | ListaDetallesNula                    // the header has no line list
    | SinDetalles                          // commit of a header without lines
    | SinCliente                           // commit of a header without customer
    | ParametroNoDisponible(nombre: string)  // the parameter lookup raised
    | ParametroNulo(nombre: string)          // no such parameter row
    | ParametroMalFormado(nombre: string)    // the parameter text does not parse
    | InsercionFallida                     // the store rejected the insert
    | ContadorNoActualizado(nombre: string)  // a counter could not be written back

  // ------------------------------------------------------------ parameters

  /** `getPorcentajeIVA`: the parsed `valor_iva`; 0 when its lookup raises. A
      missing row or unparsable text is an error. */
  function PorcentajeIva(parametros: map<string, string>, consultaFalla: set<string>): Result<real, Error>
  {
    match BuscarParametro(parametros, consultaFalla, VALOR_IVA)
    case Lanza => Ok(0.0)
    case Nulo => Err(ParametroNulo(VALOR_IVA))
    case Valor(t) =>
      match ParseDecimal(t)
      case Some(p) => Ok(p)
      case None => Err(ParametroMalFormado(VALOR_IVA))
  }

  /** `getContFacturas` / `getContFacturasDet`: the last number issued, as
      `Integer.parseInt` reads the counter's text. */
  function LeerContador(parametros: map<string, string>, consultaFalla: set<string>, nombre: string): Result<Int32, Error>
  {
    match BuscarParametro(parametros, consultaFalla, nombre)
    case Lanza => Err(ParametroNoDisponible(nombre))
    case Nulo => Err(ParametroNulo(nombre))
    case Valor(t) =>
      match ParseInt(t)
      case Some(c) => Ok(c)
      case None => Err(ParametroMalFormado(nombre))
  }

  /** A tax rate stored as the text of an integer `k` reads as `k` percent. */
  lemma PorcentajeIvaDeEntero(parametros: map<string, string>, consultaFalla: set<string>, k: int)
    requires VALOR_IVA !in consultaFalla
    ensures PorcentajeIva(parametros[VALOR_IVA := IntToString(k)], consultaFalla) == Ok(k as real)
  {
    ParseDecimalDeEntero(k);
  }

  /** Writing a counter back with `Integer.toString` and reading it again gives
      the value written. */
  lemma ContadorEscrito(parametros: map<string, string>, consultaFalla: set<string>, nombre: string, valor: Int32)
    requires nombre !in consultaFalla
    ensures LeerContador(parametros[nombre := IntToString(valor)], consultaFalla, nombre) == Ok(valor)
  {
    ParseIntDeToString(valor);
  }

  // ------------------------------------------------------------ totals

  /** The derived amounts of a header. */
  datatype Totales = Totales(subtotal: real, valorIva: real, baseCero: real, total: real)

  /** Quantity times sale price of one line. */
  function Importe(d: FacturaDet): real
  {
    d.cantidad as real * d.precioUnitarioVenta
  }

  /** Sum of the line amounts, accumulated in list order. */
  function SumaDetalles(dets: seq<FacturaDet>): real
  {
    if |dets| == 0 then 0.0 else SumaDetalles(dets[..|dets| - 1]) + Importe(dets[|dets| - 1])
  }

  /** The sum splits over concatenation: appending a line adds its amount. */
  lemma {:induction false} SumaDetallesConcat(a: seq<FacturaDet>, b: seq<FacturaDet>)
    ensures SumaDetalles(a + b) == SumaDetalles(a) + SumaDetalles(b)
  {
    if |b| == 0 {
      assert a + b == a;
    } else {
      assert (a + b)[..|a + b| - 1] == a + b[..|b| - 1];
      SumaDetallesConcat(a, b[..|b| - 1]);
    }
  }

  /** Rows with the same quantities and prices as the line objects have the
      same sum. */
  lemma {:induction false} SumaPuntual(ls: seq<LineaRegistro>, dets: seq<FacturaDet>)
    requires |ls| == |dets|
    requires forall i | 0 <= i < |ls| :: ls[i].cantidad == dets[i].cantidad && ls[i].precioUnitarioVenta == dets[i].precioUnitarioVenta
    ensures SumaImportes(ls) == SumaDetalles(dets)
  {
    if |ls| > 0 {
      SumaPuntual(ls[..|ls| - 1], dets[..|dets| - 1]);
    }
  }

  /** `calcularFacturaTmp`'s formulas: iva = subtotal * pct / 100,
      total = subtotal + iva, and no zero-rated base. */
  function CalcularTotales(suma: real, pct: real): Totales
  {
    var iva := suma * pct / 100.0;
    Totales(suma, iva, 0.0, suma + iva)
  }

  /** With non-negative prices and tax rate, 0 <= subtotal <= total. */
  lemma {:induction false} TotalesAcotados(dets: seq<FacturaDet>, pct: real)
    requires forall i | 0 <= i < |dets| :: dets[i].cantidad > 0 && dets[i].precioUnitarioVenta >= 0.0
    requires pct >= 0.0
    ensures 0.0 <= CalcularTotales(SumaDetalles(dets), pct).subtotal <= CalcularTotales(SumaDetalles(dets), pct).total
  {
    SumaNoNegativa(dets);
    var s := SumaDetalles(dets);
    assert s * pct >= 0.0;
  }

  lemma {:induction false} SumaNoNegativa(dets: seq<FacturaDet>)
    requires forall i | 0 <= i < |dets| :: dets[i].cantidad > 0 && dets[i].precioUnitarioVenta >= 0.0
    ensures SumaDetalles(dets) >= 0.0
  {
    if |dets| > 0 {
      SumaNoNegativa(dets[..|dets| - 1]);
      var d := dets[|dets| - 1];
      assert d.cantidad as real * d.precioUnitarioVenta >= 0.0;
    }
  }

  /** The header's four derived fields hold `t`. */
  predicate TotalesSon(cab: FacturaCab, t: Totales)
    reads cab
  {
    cab.subtotal == Some(t.subtotal) && cab.valorIva == Some(t.valorIva) &&
    cab.baseCero == Some(t.baseCero) && cab.total == Some(t.total)
  }

  /** The header's totals are what recalculation would give now. */
  predicate TotalesAlDia(cab: FacturaCab, parametros: map<string, string>, consultaFalla: set<string>)
    reads cab
  {
    cab.facturaDets.Some? && PorcentajeIva(parametros, consultaFalla).Ok? &&
    TotalesSon(cab, CalcularTotales(SumaDetalles(cab.facturaDets.value), PorcentajeIva(parametros, consultaFalla).value))
  }

  // ------------------------------------------------------------ validation

  /** The checks of `asignarClienteFacturaTmp`, in the order they are made: the
      id first, then the lookup, then the header (a null header fails on
      `setCliente`). */
  function ClienteAsignable(hayCabecera: bool, cedula: Option<string>, clientes: map<string, Cliente>): Result<Cliente, Error>
  {
    if cedula.None? || |cedula.value| == 0 then Err(CedulaNoEspecificada)
    else if cedula.value !in clientes then Err(ClienteNoEncontrado)
    else if !hayCabecera then Err(FacturaNula)
    else Ok(clientes[cedula.value])
  }

  /** The checks of `agregarDetalleFacturaTmp`, in the order they are made; a
      missing product fails when its price is read, a missing line list when
      the line is added. */
  function ProductoAgregable(hayCabecera: bool, hayLista: bool, codigo: Option<Int32>, cantidad: Option<Int32>,
                             productos: map<Int32, Producto>): Result<Producto, Error>
  {
    if !hayCabecera then Err(FacturaNula)
    else if codigo.None? || codigo.value < 0 then Err(CodigoProductoInvalido)
    else if cantidad.None? || cantidad.value <= 0 then Err(CantidadInvalida)
    else if codigo.value !in productos then Err(ProductoNoEncontrado)
    else if !hayLista then Err(ListaDetallesNula)
    else Ok(productos[codigo.value])
  }

  // ------------------------------------------------------------ numbering

  predicate Distintos<T(==)>(s: seq<T>)
  {
    forall i, j | 0 <= i < j < |s| :: s[i] != s[j]
  }

  /** Position of the last occurrence of `x` in `s`. */
  function UltimaPos<T(==)>(s: seq<T>, x: T): (k: nat)
    requires x in s
    ensures k < |s| && s[k] == x
    ensures forall j | k < j < |s| :: s[j] != x
  {
    if s[|s| - 1] == x then |s| - 1 else UltimaPos(s[..|s| - 1], x)
  }

  /** The commit gives each line object the id of the last position it holds
      in the list: with distinct objects, line `i` gets the `i+1`-th number
      after `d`. */
  function LineasNumeradas(dets: seq<FacturaDet>, d: Int32): (ls: seq<LineaRegistro>)
    ensures |ls| == |dets|
  {
    seq(|dets|, i requires 0 <= i < |dets| =>
      LineaRegistro(Some(Avanzar(d, UltimaPos(dets, dets[i]) + 1)), dets[i].cantidad,
                    dets[i].precioUnitarioVenta, dets[i].producto))
  }

  /** The record a successful commit inserts, given the counters `c` and `d`
      read and the tax rate `pct`. */
  function RegistroEsperado(dets: seq<FacturaDet>, cliente: Option<Cliente>, ahora: Fecha, c: Int32, d: Int32, pct: real): FacturaRegistro
  {
    var t := CalcularTotales(SumaDetalles(dets), pct);
    FacturaRegistro(Some(IntToString(Inc32(c))), Some(ahora), cliente, Some(t.subtotal), Some(t.valorIva),
                    Some(t.baseCero), Some(t.total), LineasNumeradas(dets, d))
  }

  /** The outcome of `guardarFacturaTemporal` on a header with line list
      `dets` and customer `cliente`: the record inserted, or the first failure
      in the order the method meets them. */
  function Confirmacion(hayCabecera: bool, dets: Option<seq<FacturaDet>>, cliente: Option<Cliente>, ahora: Fecha,
                        parametros: map<string, string>, consultaFalla: set<string>,
                        facturas: map<string, FacturaRegistro>, insercionFalla: bool): Result<FacturaRegistro, Error>
  {
    if !hayCabecera then Err(FacturaNula)
    else if dets.None? || |dets.value| == 0 then Err(SinDetalles)
    else if cliente.None? then Err(SinCliente)
    else match LeerContador(parametros, consultaFalla, CONT_FACTURAS)
      case Err(e) => Err(e)
      case Ok(c) =>
        match PorcentajeIva(parametros, consultaFalla)
        case Err(e) => Err(e)
        case Ok(pct) =>
          match LeerContador(parametros, consultaFalla, CONT_FACTURAS_DET)
          case Err(e) => Err(e)
          case Ok(d) =>
            var reg := RegistroEsperado(dets.value, cliente, ahora, c, d, pct);
            if Admite(facturas, insercionFalla, reg) then Ok(reg) else Err(InsercionFallida)
  }

  /** Whether a commit gets as far as numbering the lines: the header passes
      validation, and both counters and the tax rate read. */
  predicate LlegaANumerar(antes: CamposCab, parametros: map<string, string>, consultaFalla: set<string>)
  {
    && antes.facturaDets.Some? && |antes.facturaDets.value| > 0 && antes.cliente.Some?
    && LeerContador(parametros, consultaFalla, CONT_FACTURAS).Ok?
    && PorcentajeIva(parametros, consultaFalla).Ok?
    && LeerContador(parametros, consultaFalla, CONT_FACTURAS_DET).Ok?
  }

  /** The id and the header link of each line, in order; a commit that
      stops before numbering leaves it as it was (quantity, price and product
      never change). */
  function Enlaces(dets: seq<FacturaDet>): (es: seq<(Option<Int32>, FacturaCab?)>)
    reads set d: object | d in dets
    ensures |es| == |dets|
  {
    if |dets| == 0 then []
    else Enlaces(dets[..|dets| - 1]) + [(dets[|dets| - 1].numeroFacturaDet, dets[|dets| - 1].facturaCab)]
  }

  /** The header fields a commit leaves behind, whatever its outcome: a
      header failing validation is untouched; otherwise it is dated, then
      numbered once `cont_facturas` reads, then given current totals once the
      tax rate reads too. Nothing later in the commit changes them. */
  function CamposTrasGuardar(antes: CamposCab, ahora: Fecha,
                             parametros: map<string, string>, consultaFalla: set<string>): CamposCab
  {
    if antes.facturaDets.None? || |antes.facturaDets.value| == 0 || antes.cliente.None? then antes
    else
      var fechada := antes.(fechaEmision := Some(ahora));
      match LeerContador(parametros, consultaFalla, CONT_FACTURAS)
      case Err(_) => fechada
      case Ok(c) =>
        var numerada := fechada.(numeroFactura := Some(IntToString(Inc32(c))));
        match PorcentajeIva(parametros, consultaFalla)
        case Err(_) => numerada
        case Ok(pct) =>
          var t := CalcularTotales(SumaDetalles(antes.facturaDets.value), pct);
          numerada.(subtotal := Some(t.subtotal), valorIva := Some(t.valorIva),
                    baseCero := Some(t.baseCero), total := Some(t.total))
  }

  /** Whatever its outcome, a commit keeps the header's line list and its
      customer. */
  lemma CamposConservados(antes: CamposCab, ahora: Fecha, parametros: map<string, string>, consultaFalla: set<string>)
    ensures var tras := CamposTrasGuardar(antes, ahora, parametros, consultaFalla);
      tras.facturaDets == antes.facturaDets && tras.cliente == antes.cliente
  {
  }

  /** A validated, dated header whose `cont_facturas` does not read is left
      as it was, and its lines are not numbered. */
  lemma CamposSinNumero(antes: CamposCab, ahora: Fecha, parametros: map<string, string>, consultaFalla: set<string>)
    requires antes.facturaDets.Some? && |antes.facturaDets.value| > 0 && antes.cliente.Some?
    requires antes.fechaEmision == Some(ahora)
    requires LeerContador(parametros, consultaFalla, CONT_FACTURAS).Err?
    ensures CamposTrasGuardar(antes, ahora, parametros, consultaFalla) == antes
    ensures !LlegaANumerar(antes, parametros, consultaFalla)
  {
    assert antes.(fechaEmision := Some(ahora)) == antes;
  }

  /** Numbering a validated header after `c` does not change what the
      commit leaves on it, nor whether it numbers the lines. */
  lemma CamposAlNumerar(antes: CamposCab, ahora: Fecha, parametros: map<string, string>, consultaFalla: set<string>, c: Int32)
    requires antes.facturaDets.Some? && |antes.facturaDets.value| > 0 && antes.cliente.Some?
    requires LeerContador(parametros, consultaFalla, CONT_FACTURAS) == Ok(c)
    ensures var numerada := antes.(numeroFactura := Some(IntToString(Inc32(c))));
      && CamposTrasGuardar(numerada, ahora, parametros, consultaFalla) == CamposTrasGuardar(antes, ahora, parametros, consultaFalla)
      && (LlegaANumerar(numerada, parametros, consultaFalla) <==> LlegaANumerar(antes, parametros, consultaFalla))
  {
  }

  /** The parameter table after a successful commit that read `c` and `d`
      and stamped `n` lines. */
  function ContadoresTrasGuardar(parametros: map<string, string>, c: Int32, d: Int32, n: nat): map<string, string>
  {
    parametros[CONT_FACTURAS := IntToString(Inc32(c))][CONT_FACTURAS_DET := IntToString(Avanzar(d, n))]
  }

  /** The failure, if any, of writing the counters back once the insert is
      committed: `cont_facturas` is written first, and its failure skips the
      write of `cont_facturas_det`. */
  function FalloContadores(actualizacionFalla: set<string>): Option<Error>
  {
    if CONT_FACTURAS in actualizacionFalla then Some(ContadorNoActualizado(CONT_FACTURAS))
    else if CONT_FACTURAS_DET in actualizacionFalla then Some(ContadorNoActualizado(CONT_FACTURAS_DET))
    else None
  }

  /** The parameter table once the insert is committed and the counters are
      written back as `nuevoF` and `nuevoD`: both written, only the first, or
      neither, as `FalloContadores` stops. */
  function ContadoresEscritos(parametros: map<string, string>, actualizacionFalla: set<string>,
                              nuevoF: Int32, nuevoD: Int32): map<string, string>
  {
    if CONT_FACTURAS in actualizacionFalla then parametros
    else if CONT_FACTURAS_DET in actualizacionFalla then parametros[CONT_FACTURAS := IntToString(nuevoF)]
    else parametros[CONT_FACTURAS := IntToString(nuevoF)][CONT_FACTURAS_DET := IntToString(nuevoD)]
  }

  /** What `guardarFacturaTemporal` returns: the failure before the insert, if
      any, else the failure of the counter writes after it, if any. */
  function ResultadoGuardar(v: Result<FacturaRegistro, Error>, actualizacionFalla: set<string>): Result<(), Error>
  {
    if v.Err? then Err(v.error)
    else match FalloContadores(actualizacionFalla)
      case Some(e) => Err(e)
      case None => Ok(())
  }

  // ------------------------------------------------------------ store invariant

  /** A persisted invoice is complete: keyed by its number, with a customer,
      at least one line, distinct line ids, and totals that agree with its
      lines. */
  predicate RegistroCompleto(k: string, reg: FacturaRegistro)
  {
    && reg.numeroFactura == Some(k)
    && reg.cliente.Some?
    && |reg.lineas| > 0
    && IdsPropios(reg.lineas)
    && reg.subtotal == Some(SumaImportes(reg.lineas))
    && reg.baseCero == Some(0.0)
    && reg.valorIva.Some?
    && reg.total == Some(reg.subtotal.value + reg.valorIva.value)
  }

  /** Both counters are readable and at least every number already issued,
      and every persisted invoice is complete. */
  predicate Coherente(parametros: map<string, string>, consultaFalla: set<string>, facturas: map<string, FacturaRegistro>)
  {
    && LeerContador(parametros, consultaFalla, CONT_FACTURAS).Ok?
    && LeerContador(parametros, consultaFalla, CONT_FACTURAS_DET).Ok?
    && (forall k | k in facturas ::
          ParseInt(k).Some? && ParseInt(k).value <= LeerContador(parametros, consultaFalla, CONT_FACTURAS).value)
    && (forall id | id in IdsUsados(facturas) :: id <= LeerContador(parametros, consultaFalla, CONT_FACTURAS_DET).value)
    && (forall k | k in facturas :: RegistroCompleto(k, facturas[k]))
  }

  /** Neither counter overflows while numbering `n` lines. */
  predicate SinDesborde(parametros: map<string, string>, consultaFalla: set<string>, n: nat)
  {
    && LeerContador(parametros, consultaFalla, CONT_FACTURAS).Ok?
    && LeerContador(parametros, consultaFalla, CONT_FACTURAS_DET).Ok?
    && LeerContador(parametros, consultaFalla, CONT_FACTURAS).value < MAX_INT
    && LeerContador(parametros, consultaFalla, CONT_FACTURAS_DET).value + n <= MAX_INT
  }

  lemma NumerosDeLinea(dets: seq<FacturaDet>, d: Int32)
    requires Distintos(dets)
    requires d + |dets| <= MAX_INT
    ensures forall i | 0 <= i < |dets| :: LineasNumeradas(dets, d)[i].numeroFacturaDet == Some(d + i + 1)
  {
    forall i | 0 <= i < |dets| ensures LineasNumeradas(dets, d)[i].numeroFacturaDet == Some(d + i + 1) {
      assert UltimaPos(dets, dets[i]) == i;
      AvanzarSinDesborde(d, i + 1);
    }
  }

  /** On a coherent store, without overflow, a commit of distinct line objects
      that passes validation and can read the tax rate never collides with an
      invoice number or line id already stored: the insert is admitted unless
      the store itself fails. */
  lemma NumeracionLibre(dets: seq<FacturaDet>, cliente: Option<Cliente>, ahora: Fecha,
                        parametros: map<string, string>, consultaFalla: set<string>,
                        facturas: map<string, FacturaRegistro>)
    requires Coherente(parametros, consultaFalla, facturas)
    requires SinDesborde(parametros, consultaFalla, |dets|)
    requires |dets| > 0 && cliente.Some? && Distintos(dets)
    requires PorcentajeIva(parametros, consultaFalla).Ok?
    ensures Confirmacion(true, Some(dets), cliente, ahora, parametros, consultaFalla, facturas, false).Ok?
  {
    var c := LeerContador(parametros, consultaFalla, CONT_FACTURAS).value;
    var d := LeerContador(parametros, consultaFalla, CONT_FACTURAS_DET).value;
    var pct := PorcentajeIva(parametros, consultaFalla).value;
    var reg := RegistroEsperado(dets, cliente, ahora, c, d, pct);
    var numero := IntToString(c + 1);
    assert reg.numeroFactura == Some(numero);
    if numero in facturas {
      ParseIntDeToString(c + 1);
      assert false;
    }
    NumerosDeLinea(dets, d);
    var ls := reg.lineas;
    forall l | l in ls ensures l.numeroFacturaDet.value !in IdsUsados(facturas) {
      var i :| 0 <= i < |ls| && ls[i] == l;
      assert l.numeroFacturaDet == Some(d + i + 1);
    }
    assert Admite(facturas, false, reg);
  }

  /** A successful commit on a coherent store, without overflow, leaves it
      coherent: the new invoice and its lines lie within the advanced
      counters, and the invoice is complete. */
  lemma GuardarPreservaCoherencia(dets: seq<FacturaDet>, cliente: Option<Cliente>, ahora: Fecha,
                                  parametros: map<string, string>, consultaFalla: set<string>,
                                  facturas: map<string, FacturaRegistro>, insercionFalla: bool)
    requires Coherente(parametros, consultaFalla, facturas)
    requires SinDesborde(parametros, consultaFalla, |dets|)
    requires Confirmacion(true, Some(dets), cliente, ahora, parametros, consultaFalla, facturas, insercionFalla).Ok?
    ensures
      var reg := Confirmacion(true, Some(dets), cliente, ahora, parametros, consultaFalla, facturas, insercionFalla).value;
      var c := LeerContador(parametros, consultaFalla, CONT_FACTURAS).value;
      var d := LeerContador(parametros, consultaFalla, CONT_FACTURAS_DET).value;
      Coherente(ContadoresTrasGuardar(parametros, c, d, |dets|), consultaFalla, facturas[IntToString(Inc32(c)) := reg])
  {
    var c := LeerContador(parametros, consultaFalla, CONT_FACTURAS).value;
    var d := LeerContador(parametros, consultaFalla, CONT_FACTURAS_DET).value;
    var pct := PorcentajeIva(parametros, consultaFalla).value;
    var reg := RegistroEsperado(dets, cliente, ahora, c, d, pct);
    assert Confirmacion(true, Some(dets), cliente, ahora, parametros, consultaFalla, facturas, insercionFalla) == Ok(reg);
    assert Admite(facturas, insercionFalla, reg);
    RegistroEsperadoCompleto(dets, cliente, ahora, c, d, pct);
    CoherenciaTrasInsertar(parametros, consultaFalla, facturas, reg, c, d, |dets|);
  }

  /** The record a commit builds is complete once its line ids are distinct,
      and its ids lie in `d+1 .. d+n`. */
  lemma RegistroEsperadoCompleto(dets: seq<FacturaDet>, cliente: Option<Cliente>, ahora: Fecha, c: Int32, d: Int32, pct: real)
    requires |dets| > 0 && cliente.Some? && c < MAX_INT && d + |dets| <= MAX_INT
    requires IdsPropios(RegistroEsperado(dets, cliente, ahora, c, d, pct).lineas)
    ensures RegistroCompleto(IntToString(c + 1), RegistroEsperado(dets, cliente, ahora, c, d, pct))
    ensures forall id | id in IdsDe(RegistroEsperado(dets, cliente, ahora, c, d, pct).lineas) :: d < id <= d + |dets|
  {
    IdsNumerados(dets, d);
    SumaPuntual(LineasNumeradas(dets, d), dets);
  }

  /** Without overflow, the ids a commit stamps lie in `d+1 .. d+n`. */
  lemma IdsNumerados(dets: seq<FacturaDet>, d: Int32)
    requires d + |dets| <= MAX_INT
    ensures forall id | id in IdsDe(LineasNumeradas(dets, d)) :: d < id <= d + |dets|
  {
    var ls := LineasNumeradas(dets, d);
    forall i | 0 <= i < |ls| ensures ls[i].numeroFacturaDet.Some? && d < ls[i].numeroFacturaDet.value <= d + |dets| {
      AvanzarSinDesborde(d, UltimaPos(dets, dets[i]) + 1);
    }
    forall id | id in IdsDe(ls) ensures d < id <= d + |dets| {
      var l :| l in ls && l.numeroFacturaDet.Some? && l.numeroFacturaDet.value == id;
      var i :| 0 <= i < |ls| && ls[i] == l;
    }
  }

  /** Inserting a complete invoice numbered `c+1`, whose line ids are at most
      `d+n`, and advancing the counters to `c+1` and `d+n` keeps the store
      coherent. */
  lemma CoherenciaTrasInsertar(parametros: map<string, string>, consultaFalla: set<string>,
                               facturas: map<string, FacturaRegistro>, reg: FacturaRegistro, c: Int32, d: Int32, n: nat)
    requires Coherente(parametros, consultaFalla, facturas)
    requires LeerContador(parametros, consultaFalla, CONT_FACTURAS) == Ok(c)
    requires LeerContador(parametros, consultaFalla, CONT_FACTURAS_DET) == Ok(d)
    requires c < MAX_INT && d + n <= MAX_INT
    requires IntToString(c + 1) !in facturas
    requires RegistroCompleto(IntToString(c + 1), reg)
    requires forall id | id in IdsDe(reg.lineas) :: id <= d + n
    ensures Coherente(ContadoresTrasGuardar(parametros, c, d, n), consultaFalla, facturas[IntToString(c + 1) := reg])
  {
    var numero := IntToString(c + 1);
    var p2 := ContadoresTrasGuardar(parametros, c, d, n);
    var nuevo := facturas[numero := reg];
    ContadoresAvanzados(parametros, consultaFalla, c, d, n);
    ParseIntDeToString(c + 1);
    IdsUsadosTrasInsertar(facturas, numero, reg);
    forall k | k in nuevo
      ensures ParseInt(k).Some? && ParseInt(k).value <= c + 1
      ensures RegistroCompleto(k, nuevo[k])
    {
      if k != numero {
        assert k in facturas;
      }
    }
    forall id | id in IdsUsados(nuevo) ensures id <= d + n {
      if id !in IdsDe(reg.lineas) {
        assert id in IdsUsados(facturas);
      }
    }
  }

  /** A counter write that fails after the insert is committed leaves the
      store incoherent: either the invoice number `c+1` is stored while
      `cont_facturas` still reads `c`, or line ids above `d` are stored while
      `cont_facturas_det` still reads `d`. */
  lemma EscrituraParcialIncoherente(dets: seq<FacturaDet>, cliente: Option<Cliente>, ahora: Fecha,
                                    parametros: map<string, string>, consultaFalla: set<string>,
                                    facturas: map<string, FacturaRegistro>, insercionFalla: bool,
                                    actualizacionFalla: set<string>)
    requires SinDesborde(parametros, consultaFalla, |dets|)
    requires Confirmacion(true, Some(dets), cliente, ahora, parametros, consultaFalla, facturas, insercionFalla).Ok?
    requires FalloContadores(actualizacionFalla).Some?
    ensures
      var reg := Confirmacion(true, Some(dets), cliente, ahora, parametros, consultaFalla, facturas, insercionFalla).value;
      var c := LeerContador(parametros, consultaFalla, CONT_FACTURAS).value;
      var d := LeerContador(parametros, consultaFalla, CONT_FACTURAS_DET).value;
      !Coherente(ContadoresEscritos(parametros, actualizacionFalla, Inc32(c), Avanzar(d, |dets|)), consultaFalla,
                 facturas[IntToString(Inc32(c)) := reg])
  {
    var c := LeerContador(parametros, consultaFalla, CONT_FACTURAS).value;
    var d := LeerContador(parametros, consultaFalla, CONT_FACTURAS_DET).value;
    var pct := PorcentajeIva(parametros, consultaFalla).value;
    var reg := RegistroEsperado(dets, cliente, ahora, c, d, pct);
    var numero := IntToString(c + 1);
    var nuevo := facturas[numero := reg];
    var escritos := ContadoresEscritos(parametros, actualizacionFalla, Inc32(c), Avanzar(d, |dets|));
    if CONT_FACTURAS in actualizacionFalla {
      ParseIntDeToString(c + 1);
      assert numero in nuevo && ParseInt(numero).value > c;
    } else {
      assert escritos == parametros[CONT_FACTURAS := numero];
      assert LeerContador(escritos, consultaFalla, CONT_FACTURAS_DET) == Ok(d);
      IdsNumerados(dets, d);
      var l := reg.lineas[0];
      assert l.numeroFacturaDet.Some? && l in reg.lineas;
      assert l.numeroFacturaDet.value in IdsUsados(nuevo) by {
        assert numero in nuevo && l in nuevo[numero].lineas;
      }
      assert l.numeroFacturaDet.value in IdsDe(reg.lineas);
    }
  }

  /** While `cont_facturas` has not advanced past an invoice already stored,
      every later commit draws that invoice's number again and its insert is
      rejected, whatever its lines, customer, date or store condition. */
  lemma ReintentoRechazado(dets: seq<FacturaDet>, cliente: Option<Cliente>, ahora: Fecha,
                           parametros: map<string, string>, consultaFalla: set<string>,
                           facturas: map<string, FacturaRegistro>, insercionFalla: bool,
                           dets2: seq<FacturaDet>, cliente2: Option<Cliente>, ahora2: Fecha, insercionFalla2: bool)
    requires Confirmacion(true, Some(dets), cliente, ahora, parametros, consultaFalla, facturas, insercionFalla).Ok?
    ensures
      var reg := Confirmacion(true, Some(dets), cliente, ahora, parametros, consultaFalla, facturas, insercionFalla).value;
      var nuevo := facturas[reg.numeroFactura.value := reg];
      var v2 := Confirmacion(true, Some(dets2), cliente2, ahora2, parametros, consultaFalla, nuevo, insercionFalla2);
      && v2.Err?
      && (|dets2| > 0 && cliente2.Some? ==> v2 == Err(InsercionFallida))
  {
  }

  /** Without overflow, the counters written back after a commit read as
      `c+1` and `d+n`. */
  lemma ContadoresAvanzados(parametros: map<string, string>, consultaFalla: set<string>, c: Int32, d: Int32, n: nat)
    requires CONT_FACTURAS !in consultaFalla && CONT_FACTURAS_DET !in consultaFalla
    requires c < MAX_INT && d + n <= MAX_INT
    ensures LeerContador(ContadoresTrasGuardar(parametros, c, d, n), consultaFalla, CONT_FACTURAS) == Ok(c + 1)
    ensures LeerContador(ContadoresTrasGuardar(parametros, c, d, n), consultaFalla, CONT_FACTURAS_DET) == Ok(d + n)
  {
    var p1 := parametros[CONT_FACTURAS := IntToString(c + 1)];
    var p2 := ContadoresTrasGuardar(parametros, c, d, n);
    AvanzarSinDesborde(d, n);
    assert p2 == p1[CONT_FACTURAS_DET := IntToString(d + n)];
    ContadorEscrito(parametros, consultaFalla, CONT_FACTURAS, c + 1);
    ContadorEscrito(p1, consultaFalla, CONT_FACTURAS_DET, d + n);
    assert LeerContador(p2, consultaFalla, CONT_FACTURAS) == LeerContador(p1, consultaFalla, CONT_FACTURAS);
  }

  // ------------------------------------------------------------ the manager

  /** The numbering loop of `guardarFacturaTemporal`: each line, in order,
      gets the next value of the line counter and a back-reference to its
      header; the counter ends `|dets|` steps further on. A line object that
      occurs twice keeps the id of its last occurrence. */
  method NumerarDetalles(cab: FacturaCab, dets: seq<FacturaDet>, d: Int32) returns (contFacturasDet: Int32)
    modifies set x: FacturaDet | x in dets
    ensures contFacturasDet == Avanzar(d, |dets|)
    ensures forall i | 0 <= i < |dets| :: dets[i].facturaCab == cab
    ensures Lineas(dets) == LineasNumeradas(dets, d)
  {
    contFacturasDet := d;
    for k := 0 to |dets|
      invariant contFacturasDet == Avanzar(d, k)
      invariant forall i | 0 <= i < k :: dets[i].facturaCab == cab
      invariant forall i | 0 <= i < k :: EsUltima(dets, i, k) ==> dets[i].numeroFacturaDet == Some(Avanzar(d, i + 1))
    {
      contFacturasDet := Inc32(contFacturasDet);
      dets[k].numeroFacturaDet := Some(contFacturasDet);
      dets[k].facturaCab := cab;
    }
    LineasDeNumerados(dets, d);
  }

  /** A header dated `ahora`, numbered after `c`, with current totals and
      lines numbered after `d`, is written as the record a commit expects. */
  lemma RegistroDeCabecera(cab: FacturaCab, dets: seq<FacturaDet>, ahora: Fecha, c: Int32, d: Int32, pct: real)
    requires cab.facturaDets == Some(dets) && cab.fechaEmision == Some(ahora)
    requires cab.numeroFactura == Some(IntToString(Inc32(c)))
    requires TotalesSon(cab, CalcularTotales(SumaDetalles(dets), pct))
    requires Lineas(dets) == LineasNumeradas(dets, d)
    ensures Registro(cab) == RegistroEsperado(dets, cab.cliente, ahora, c, d, pct)
  {
  }

  /** Lines stamped as the numbering loop stamps them are written as
      `LineasNumeradas`. */
  lemma LineasDeNumerados(dets: seq<FacturaDet>, d: Int32)
    requires forall i | 0 <= i < |dets| :: EsUltima(dets, i, |dets|) ==> dets[i].numeroFacturaDet == Some(Avanzar(d, i + 1))
    ensures Lineas(dets) == LineasNumeradas(dets, d)
  {
    LineasPuntual(dets);
    var ls, esperadas := Lineas(dets), LineasNumeradas(dets, d);
    forall i | 0 <= i < |dets| ensures ls[i] == esperadas[i] {
      var j := UltimaPos(dets, dets[i]);
      assert EsUltima(dets, j, |dets|);
    }
  }

  /** Position `i` is the last one `s[i]` holds among the first `k`. */
  ghost predicate EsUltima<T>(s: seq<T>, i: nat, k: nat)
    requires i < k <= |s|
  {
    forall j | i < j < k :: s[j] != s[i]
  }

  /** `ManagerFacturacion`: the workflow over one persistence layer. */
  class ManagerFacturacion {
    const managerDAO: Almacen

    constructor (managerDAO: Almacen)
      ensures this.managerDAO == managerDAO
    {
      this.managerDAO := managerDAO;
    }

    /** `actualizarContFacturas` / `actualizarContFacturasDet`: looks the counter
        row up again and writes the new value as text; fails, writing nothing,
        when the lookup raises, finds no row, or the update is rolled back. */
    method ActualizarContador(nombre: string, valor: Int32) returns (ok: bool)
      modifies managerDAO`parametros
      ensures ok == (nombre !in managerDAO.consultaFalla && nombre in old(managerDAO.parametros)
                     && nombre !in managerDAO.actualizacionFalla)
      ensures managerDAO.parametros ==
        if ok then old(managerDAO.parametros)[nombre := IntToString(valor)] else old(managerDAO.parametros)
      ensures ok ==> LeerContador(managerDAO.parametros, managerDAO.consultaFalla, nombre) == Ok(valor)
    {
      var fila := BuscarParametro(managerDAO.parametros, managerDAO.consultaFalla, nombre);
      if !fila.Valor? {
        return false;
      }
      ok := managerDAO.ActualizarParametro(nombre, IntToString(valor));
      if ok {
        ContadorEscrito(old(managerDAO.parametros), managerDAO.consultaFalla, nombre, valor);
      }
    }

    /** `crearFacturaTmp`: a header dated `ahora` with an empty line list and
        no number, customer or totals. */
    method CrearFacturaTmp(ahora: Fecha) returns (cab: FacturaCab)
      ensures fresh(cab)
      ensures cab.Campos() == CamposCab(None, None, Some(ahora), None, None, None, None, Some([]))
    {
      cab := new FacturaCab();
      cab.SetFechaEmision(Some(ahora));
      cab.SetFacturaDets(Some([]));
    }

    /** `asignarClienteFacturaTmp`: sets the header's customer to the one stored
        under `cedula`; only `cliente` changes, and only on success. */
    method AsignarClienteFacturaTmp(cab: FacturaCab?, cedula: Option<string>) returns (r: Result<(), Error>)
      modifies cab
      ensures var v := ClienteAsignable(cab != null, cedula, managerDAO.clientes);
        (r.Ok? <==> v.Ok?) && (v.Err? ==> r == Err(v.error))
      ensures cab != null ==>
        var v := ClienteAsignable(true, cedula, managerDAO.clientes);
        cab.Campos() == old(cab.Campos()).(cliente := if v.Ok? then Some(v.value) else old(cab.cliente))
    {
      if cedula.None? || |cedula.value| == 0 {
        return Err(CedulaNoEspecificada);
      }
      if cedula.value !in managerDAO.clientes {
        return Err(ClienteNoEncontrado);
      }
      var cliente := managerDAO.clientes[cedula.value];
      if cab == null {
        return Err(FacturaNula);
      }
      cab.SetCliente(Some(cliente));
      r := Ok(());
    }

    /** The loop of `calcularFacturaTmp` that accumulates quantity times sale
        price over the lines, in list order. */
    method SumarSubtotales(dets: seq<FacturaDet>) returns (sumaSubtotales: real)
      ensures sumaSubtotales == SumaDetalles(dets)
    {
      sumaSubtotales := 0.0;
      for i := 0 to |dets|
        invariant sumaSubtotales == SumaDetalles(dets[..i])
      {
        assert dets[..i + 1][..i] == dets[..i];
        sumaSubtotales := sumaSubtotales + dets[i].cantidad as real * dets[i].precioUnitarioVenta;
      }
      assert dets[..|dets|] == dets;
    }

    /** `calcularFacturaTmp`: sums quantity times sale price over the lines and
        sets subtotal, tax, zero base and total from the current tax rate.
        When the tax rate cannot be read nothing changes. Idempotent: on a
        header whose totals are current it changes nothing. */
    method CalcularFacturaTmp(cab: FacturaCab) returns (r: Result<(), Error>)
      requires cab.facturaDets.Some?
      modifies cab`subtotal, cab`valorIva, cab`baseCero, cab`total
      ensures var pct := PorcentajeIva(managerDAO.parametros, managerDAO.consultaFalla);
        (r.Ok? <==> pct.Ok?) && (pct.Err? ==> r == Err(pct.error) && unchanged(cab))
      ensures r.Ok? ==> TotalesAlDia(cab, managerDAO.parametros, managerDAO.consultaFalla)
      ensures old(TotalesAlDia(cab, managerDAO.parametros, managerDAO.consultaFalla)) ==> unchanged(cab)
    {
      var dets := cab.facturaDets.value;
      var sumaSubtotales := SumarSubtotales(dets);
      var porcentajeIva := PorcentajeIva(managerDAO.parametros, managerDAO.consultaFalla);
      if porcentajeIva.Err? {
        return Err(porcentajeIva.error);
      }
      var valorIva := sumaSubtotales * porcentajeIva.value / 100.0;
      var totalFactura := sumaSubtotales + valorIva;
      ghost var t := CalcularTotales(SumaDetalles(dets), porcentajeIva.value);
      assert valorIva == t.valorIva && totalFactura == t.total;
      FijarTotales(cab, sumaSubtotales, valorIva, totalFactura);
      r := Ok(());
    }

    /** The four setter calls that end `calcularFacturaTmp`: subtotal, tax,
        a zero base of 0 and total. Setting the values already there changes
        nothing. */
    method FijarTotales(cab: FacturaCab, subtotal: real, valorIva: real, total: real)
      modifies cab`subtotal, cab`valorIva, cab`baseCero, cab`total
      ensures TotalesSon(cab, Totales(subtotal, valorIva, 0.0, total))
      ensures old(TotalesSon(cab, Totales(subtotal, valorIva, 0.0, total))) ==> unchanged(cab)
    {
      cab.SetSubtotal(Some(subtotal));
      cab.SetValorIva(Some(valorIva));
      cab.SetBaseCero(Some(0.0));
      cab.SetTotal(Some(total));
    }

    /** `agregarDetalleFacturaTmp`: appends one line for product `codigo`
        (quantity `cantidad`, the product's current price) and recalculates.
        A failed check changes nothing; a failed recalculation keeps the new
        line but leaves the totals as they were. */
    method AgregarDetalleFacturaTmp(cab: FacturaCab?, codigo: Option<Int32>, cantidad: Option<Int32>) returns (r: Result<(), Error>)
      modifies cab
      ensures var v := ProductoAgregable(cab != null, cab != null && old(cab.facturaDets).Some?, codigo, cantidad, managerDAO.productos);
        v.Err? ==> r == Err(v.error) && (cab != null ==> unchanged(cab))
      ensures var v := ProductoAgregable(cab != null, cab != null && old(cab.facturaDets).Some?, codigo, cantidad, managerDAO.productos);
        v.Ok? ==>
          var antes := old(cab.facturaDets).value;
          && cab != null && cab.facturaDets.Some?
          && |cab.facturaDets.value| == |antes| + 1
          && cab.facturaDets.value[..|antes|] == antes
          && fresh(cab.facturaDets.value[|antes|])
          && cab.facturaDets.value[|antes|].cantidad == cantidad.value
          && cab.facturaDets.value[|antes|].precioUnitarioVenta == v.value.precioUnitario
          && cab.facturaDets.value[|antes|].producto == v.value
          && cab.facturaDets.value[|antes|].numeroFacturaDet == None
          && cab.facturaDets.value[|antes|].facturaCab == null
      ensures var v := ProductoAgregable(cab != null, cab != null && old(cab.facturaDets).Some?, codigo, cantidad, managerDAO.productos);
        var pct := PorcentajeIva(managerDAO.parametros, managerDAO.consultaFalla);
        v.Ok? ==>
          && cab != null
          && (r.Ok? <==> pct.Ok?)
          && (r.Ok? ==> TotalesAlDia(cab, managerDAO.parametros, managerDAO.consultaFalla))
          && (pct.Err? ==> r == Err(pct.error) && cab.subtotal == old(cab.subtotal) && cab.valorIva == old(cab.valorIva)
                                                && cab.baseCero == old(cab.baseCero) && cab.total == old(cab.total))
      ensures cab != null ==>
        cab.numeroFactura == old(cab.numeroFactura) && cab.fechaEmision == old(cab.fechaEmision) && cab.cliente == old(cab.cliente)
    {
      if cab == null {
        return Err(FacturaNula);
      }
      if codigo.None? || codigo.value < 0 {
        return Err(CodigoProductoInvalido);
      }
      if cantidad.None? || cantidad.value <= 0 {
        return Err(CantidadInvalida);
      }
      if codigo.value !in managerDAO.productos {
        return Err(ProductoNoEncontrado);
      }
      var p := managerDAO.productos[codigo.value];
      var fd := new FacturaDet(cantidad.value, p.precioUnitario, p);
      if cab.facturaDets.None? {
        return Err(ListaDetallesNula);
      }
      cab.SetFacturaDets(Some(cab.facturaDets.value + [fd]));
      r := CalcularFacturaTmp(cab);
    }

    /** The outcome `guardarFacturaTemporal` reaches from the current state. */
    ghost function ConfirmacionDe(cab: FacturaCab?, ahora: Fecha): Result<FacturaRegistro, Error>
      reads cab, managerDAO
    {
      Confirmacion(cab != null, if cab != null then cab.facturaDets else None, if cab != null then cab.cliente else None,
                   ahora, managerDAO.parametros, managerDAO.consultaFalla, managerDAO.facturas, managerDAO.insercionFalla)
    }

    /** `ConfirmacionDe` for a header that exists, reading only the fields
        the outcome depends on. */
    ghost function ConfirmacionEn(cab: FacturaCab, ahora: Fecha): Result<FacturaRegistro, Error>
      reads cab`facturaDets, cab`cliente, managerDAO
    {
      Confirmacion(true, cab.facturaDets, cab.cliente, ahora, managerDAO.parametros, managerDAO.consultaFalla,
                   managerDAO.facturas, managerDAO.insercionFalla)
    }

    /** `guardarFacturaTemporal`: validates, dates the header, takes the next
        invoice number, recalculates, numbers the lines consecutively after the
        line counter, inserts the header with its lines, and only then writes
        both counters back. A failure before the insert leaves the store as it
        was; a failed counter write after it leaves the invoice stored. */
    method GuardarFacturaTemporal(cab: FacturaCab?, ahora: Fecha) returns (r: Result<(), Error>)
      modifies if cab != null then cab.Huella() else {}, managerDAO`facturas, managerDAO`parametros
      ensures r == ResultadoGuardar(old(ConfirmacionDe(cab, ahora)), managerDAO.actualizacionFalla)
      ensures cab != null && old(cab.facturaDets.None? || |cab.facturaDets.value| == 0 || cab.cliente.None?) ==> unchanged(cab)
      ensures cab != null ==> cab.facturaDets == old(cab.facturaDets)
      ensures old(ConfirmacionDe(cab, ahora)).Err? ==>
        managerDAO.parametros == old(managerDAO.parametros) && managerDAO.facturas == old(managerDAO.facturas)
      ensures cab != null && old(cab.facturaDets.Some? && |cab.facturaDets.value| > 0 && cab.cliente.Some?) ==>
        cab.facturaDets == old(cab.facturaDets) && cab.cliente == old(cab.cliente) && cab.fechaEmision == Some(ahora)
      ensures old(ConfirmacionDe(cab, ahora)).Ok? ==>
        var c := old(LeerContador(managerDAO.parametros, managerDAO.consultaFalla, CONT_FACTURAS)).value;
        var d := old(LeerContador(managerDAO.parametros, managerDAO.consultaFalla, CONT_FACTURAS_DET)).value;
        var reg := old(ConfirmacionDe(cab, ahora)).value;
        && cab != null && cab.facturaDets.Some?
        && Registro(cab) == reg
        && (forall det | det in cab.facturaDets.value :: det.facturaCab == cab)
        && managerDAO.facturas == old(managerDAO.facturas)[IntToString(Inc32(c)) := reg]
        && managerDAO.parametros == ContadoresEscritos(old(managerDAO.parametros), managerDAO.actualizacionFalla,
                                                       Inc32(c), Avanzar(d, |cab.facturaDets.value|))
      ensures cab != null ==>
        var llega := LlegaANumerar(old(cab.Campos()), old(managerDAO.parametros), managerDAO.consultaFalla);
        && cab.Campos() == CamposTrasGuardar(old(cab.Campos()), ahora, old(managerDAO.parametros), managerDAO.consultaFalla)
        && (llega && cab.facturaDets.Some? ==>
              var d := old(LeerContador(managerDAO.parametros, managerDAO.consultaFalla, CONT_FACTURAS_DET)).value;
              && Lineas(cab.facturaDets.value) == LineasNumeradas(cab.facturaDets.value, d)
              && (forall det | det in cab.facturaDets.value :: det.facturaCab == cab))
        && (!llega && cab.facturaDets.Some? && old(cab.facturaDets).Some? ==>
              Enlaces(cab.facturaDets.value) == old(Enlaces(cab.facturaDets.value)))
    {
      if cab == null {
        return Err(FacturaNula);
      }
      if cab.facturaDets.None? || |cab.facturaDets.value| == 0 {
        return Err(SinDetalles);
      }
      if cab.cliente.None? {
        return Err(SinCliente);
      }
      ghost var v := ConfirmacionDe(cab, ahora);
      cab.SetFechaEmision(Some(ahora));
      assert ConfirmacionDe(cab, ahora) == v;
      r := Confirmar(cab, ahora);
    }

    /** The guarded part of `guardarFacturaTemporal`, on a dated header with
        lines and a customer: everything from reading the invoice counter to
        writing both counters back. */
    method Confirmar(cab: FacturaCab, ahora: Fecha) returns (r: Result<(), Error>)
      requires cab.facturaDets.Some? && |cab.facturaDets.value| > 0 && cab.cliente.Some?
      requires cab.fechaEmision == Some(ahora)
      modifies cab.Huella(), managerDAO`facturas, managerDAO`parametros
      ensures r == ResultadoGuardar(old(ConfirmacionDe(cab, ahora)), managerDAO.actualizacionFalla)
      ensures old(ConfirmacionDe(cab, ahora)).Err? ==>
        managerDAO.parametros == old(managerDAO.parametros) && managerDAO.facturas == old(managerDAO.facturas)
      ensures cab.facturaDets == old(cab.facturaDets) && cab.cliente == old(cab.cliente) && cab.fechaEmision == Some(ahora)
      ensures old(ConfirmacionDe(cab, ahora)).Ok? ==>
        var c := old(LeerContador(managerDAO.parametros, managerDAO.consultaFalla, CONT_FACTURAS)).value;
        var d := old(LeerContador(managerDAO.parametros, managerDAO.consultaFalla, CONT_FACTURAS_DET)).value;
        var reg := old(ConfirmacionDe(cab, ahora)).value;
        && Registro(cab) == reg
        && (forall det | det in cab.facturaDets.value :: det.facturaCab == cab)
        && managerDAO.facturas == old(managerDAO.facturas)[IntToString(Inc32(c)) := reg]
        && managerDAO.parametros == ContadoresEscritos(old(managerDAO.parametros), managerDAO.actualizacionFalla,
                                                       Inc32(c), Avanzar(d, |cab.facturaDets.value|))
      ensures cab.Campos() == CamposTrasGuardar(old(cab.Campos()), ahora, old(managerDAO.parametros), managerDAO.consultaFalla)
      ensures LlegaANumerar(old(cab.Campos()), old(managerDAO.parametros), managerDAO.consultaFalla) ==>
        var d := old(LeerContador(managerDAO.parametros, managerDAO.consultaFalla, CONT_FACTURAS_DET)).value;
        && Lineas(cab.facturaDets.value) == LineasNumeradas(cab.facturaDets.value, d)
        && (forall det | det in cab.facturaDets.value :: det.facturaCab == cab)
      ensures !LlegaANumerar(old(cab.Campos()), old(managerDAO.parametros), managerDAO.consultaFalla) ==>
        Enlaces(cab.facturaDets.value) == old(Enlaces(cab.facturaDets.value))
    {
      ghost var v := ConfirmacionDe(cab, ahora);
      ghost var antes := cab.Campos();
      var lc := LeerContador(managerDAO.parametros, managerDAO.consultaFalla, CONT_FACTURAS);
      if lc.Err? {
        assert v == Err(lc.error);
        CamposSinNumero(antes, ahora, managerDAO.parametros, managerDAO.consultaFalla);
        return Err(lc.error);
      }
      var contFacturas := Inc32(lc.value);
      cab.SetNumeroFactura(Some(IntToString(contFacturas)));
      CamposAlNumerar(antes, ahora, managerDAO.parametros, managerDAO.consultaFalla, lc.value);
      assert ConfirmacionDe(cab, ahora) == ConfirmacionEn(cab, ahora) == v;
      r := ConfirmarNumerada(cab, ahora, lc.value);
    }

    /** The rest of `Confirmar` once the header is numbered after `c`:
        recalculates, then reads the line counter and commits. */
    method ConfirmarNumerada(cab: FacturaCab, ahora: Fecha, c: Int32) returns (r: Result<(), Error>)
      requires cab.facturaDets.Some? && |cab.facturaDets.value| > 0 && cab.cliente.Some?
      requires cab.fechaEmision == Some(ahora)
      requires LeerContador(managerDAO.parametros, managerDAO.consultaFalla, CONT_FACTURAS) == Ok(c)
      requires cab.numeroFactura == Some(IntToString(Inc32(c)))
      modifies cab.Huella(), managerDAO`facturas, managerDAO`parametros
      ensures r == ResultadoGuardar(old(ConfirmacionEn(cab, ahora)), managerDAO.actualizacionFalla)
      ensures old(ConfirmacionEn(cab, ahora)).Err? ==>
        managerDAO.parametros == old(managerDAO.parametros) && managerDAO.facturas == old(managerDAO.facturas)
      ensures old(ConfirmacionEn(cab, ahora)).Ok? ==>
        var d := old(LeerContador(managerDAO.parametros, managerDAO.consultaFalla, CONT_FACTURAS_DET)).value;
        var reg := old(ConfirmacionEn(cab, ahora)).value;
        && Registro(cab) == reg
        && (forall det | det in cab.facturaDets.value :: det.facturaCab == cab)
        && managerDAO.facturas == old(managerDAO.facturas)[IntToString(Inc32(c)) := reg]
        && managerDAO.parametros == ContadoresEscritos(old(managerDAO.parametros), managerDAO.actualizacionFalla,
                                                       Inc32(c), Avanzar(d, |cab.facturaDets.value|))
      ensures cab.Campos() == CamposTrasGuardar(old(cab.Campos()), ahora, old(managerDAO.parametros), managerDAO.consultaFalla)
      ensures old(PorcentajeIva(managerDAO.parametros, managerDAO.consultaFalla)).Ok? &&
              old(LeerContador(managerDAO.parametros, managerDAO.consultaFalla, CONT_FACTURAS_DET)).Ok? ==>
        var d := old(LeerContador(managerDAO.parametros, managerDAO.consultaFalla, CONT_FACTURAS_DET)).value;
        && Lineas(cab.facturaDets.value) == LineasNumeradas(cab.facturaDets.value, d)
        && (forall det | det in cab.facturaDets.value :: det.facturaCab == cab)
      ensures !(old(PorcentajeIva(managerDAO.parametros, managerDAO.consultaFalla)).Ok? &&
                old(LeerContador(managerDAO.parametros, managerDAO.consultaFalla, CONT_FACTURAS_DET)).Ok?) ==>
        Enlaces(cab.facturaDets.value) == old(Enlaces(cab.facturaDets.value))
    {
      ghost var v := ConfirmacionEn(cab, ahora);
      ghost var antes := cab.Campos();
      ghost var tras := CamposTrasGuardar(antes, ahora, managerDAO.parametros, managerDAO.consultaFalla);
      ghost var dets := cab.facturaDets.value;
      ghost var enlaces := Enlaces(dets);
      var rc := CalcularFacturaTmp(cab);
      assert Enlaces(dets) == enlaces;
      if rc.Err? {
        assert v == Err(rc.error);
        assert cab.Campos() == antes == tras;
        return rc;
      }
      ghost var t := CalcularTotales(SumaDetalles(antes.facturaDets.value),
                                     PorcentajeIva(managerDAO.parametros, managerDAO.consultaFalla).value);
      assert TotalesSon(cab, t);
      assert cab.Campos() == tras;
      assert ConfirmacionEn(cab, ahora) == v;
      r := ConfirmarCalculada(cab, ahora, c);
      assert cab.Campos() == tras;
      if LeerContador(old(managerDAO.parametros), managerDAO.consultaFalla, CONT_FACTURAS_DET).Err? {
        assert Enlaces(dets) == enlaces;
      }
    }

    /** The rest of `Confirmar` once the header is numbered after `c` and its
        totals are current: reads the line counter and commits. */
    method ConfirmarCalculada(cab: FacturaCab, ahora: Fecha, c: Int32) returns (r: Result<(), Error>)
      requires cab.facturaDets.Some? && |cab.facturaDets.value| > 0 && cab.cliente.Some?
      requires cab.fechaEmision == Some(ahora)
      requires LeerContador(managerDAO.parametros, managerDAO.consultaFalla, CONT_FACTURAS) == Ok(c)
      requires cab.numeroFactura == Some(IntToString(Inc32(c)))
      requires TotalesAlDia(cab, managerDAO.parametros, managerDAO.consultaFalla)
      modifies cab.Huella() - {cab}, managerDAO`facturas, managerDAO`parametros
      ensures unchanged(cab) && cab.Campos() == old(cab.Campos())
      ensures r == ResultadoGuardar(old(ConfirmacionEn(cab, ahora)), managerDAO.actualizacionFalla)
      ensures old(ConfirmacionEn(cab, ahora)).Err? ==>
        managerDAO.parametros == old(managerDAO.parametros) && managerDAO.facturas == old(managerDAO.facturas)
      ensures old(ConfirmacionEn(cab, ahora)).Ok? ==>
        var d := old(LeerContador(managerDAO.parametros, managerDAO.consultaFalla, CONT_FACTURAS_DET)).value;
        var reg := old(ConfirmacionEn(cab, ahora)).value;
        && Registro(cab) == reg
        && (forall det | det in cab.facturaDets.value :: det.facturaCab == cab)
        && managerDAO.facturas == old(managerDAO.facturas)[IntToString(Inc32(c)) := reg]
        && managerDAO.parametros == ContadoresEscritos(old(managerDAO.parametros), managerDAO.actualizacionFalla,
                                                       Inc32(c), Avanzar(d, |cab.facturaDets.value|))
      ensures old(LeerContador(managerDAO.parametros, managerDAO.consultaFalla, CONT_FACTURAS_DET)).Err? ==>
        Enlaces(cab.facturaDets.value) == old(Enlaces(cab.facturaDets.value))
      ensures old(LeerContador(managerDAO.parametros, managerDAO.consultaFalla, CONT_FACTURAS_DET)).Ok? ==>
        var d := old(LeerContador(managerDAO.parametros, managerDAO.consultaFalla, CONT_FACTURAS_DET)).value;
        && Lineas(cab.facturaDets.value) == LineasNumeradas(cab.facturaDets.value, d)
        && (forall det | det in cab.facturaDets.value :: det.facturaCab == cab)
    {
      ghost var v := ConfirmacionEn(cab, ahora);
      var ld := LeerContador(managerDAO.parametros, managerDAO.consultaFalla, CONT_FACTURAS_DET);
      if ld.Err? {
        assert v == Err(ld.error);
        return Err(ld.error);
      }
      ghost var pct := PorcentajeIva(managerDAO.parametros, managerDAO.consultaFalla).value;
      ghost var esperado := RegistroEsperado(cab.facturaDets.value, cab.cliente, ahora, c, ld.value, pct);
      assert v == if Admite(managerDAO.facturas, managerDAO.insercionFalla, esperado) then Ok(esperado) else Err(InsercionFallida);
      r := Persistir(cab, Inc32(c), ld.value);
      RegistroDeCabecera(cab, cab.facturaDets.value, ahora, c, ld.value, pct);
    }

    /** The commit phase of `guardarFacturaTemporal`, once both counters have
        been read: numbers the lines after `contFacturasDet`, inserts the
        header with its lines, then writes both counters back. A rejected
        insert leaves the store as it was. */
    method Persistir(cab: FacturaCab, contFacturas: Int32, contFacturasDet: Int32) returns (r: Result<(), Error>)
      requires cab.facturaDets.Some?
      requires CONT_FACTURAS !in managerDAO.consultaFalla && CONT_FACTURAS in managerDAO.parametros
      requires CONT_FACTURAS_DET !in managerDAO.consultaFalla && CONT_FACTURAS_DET in managerDAO.parametros
      modifies cab.Huella() - {cab}, managerDAO`facturas, managerDAO`parametros
      ensures unchanged(cab)
      ensures Lineas(cab.facturaDets.value) == LineasNumeradas(cab.facturaDets.value, contFacturasDet)
      ensures forall det | det in cab.facturaDets.value :: det.facturaCab == cab
      ensures !Admite(old(managerDAO.facturas), managerDAO.insercionFalla, Registro(cab)) ==>
        && r == Err(InsercionFallida)
        && managerDAO.facturas == old(managerDAO.facturas) && managerDAO.parametros == old(managerDAO.parametros)
      ensures Admite(old(managerDAO.facturas), managerDAO.insercionFalla, Registro(cab)) ==>
        && r == ResultadoGuardar(Ok(Registro(cab)), managerDAO.actualizacionFalla)
        && managerDAO.facturas == old(managerDAO.facturas)[cab.numeroFactura.value := Registro(cab)]
        && managerDAO.parametros == ContadoresEscritos(old(managerDAO.parametros), managerDAO.actualizacionFalla,
                                                       contFacturas, Avanzar(contFacturasDet, |cab.facturaDets.value|))
    {
      var dets := cab.facturaDets.value;
      var ultimoDet := NumerarDetalles(cab, dets, contFacturasDet);
      var reg := Registro(cab);
      var numerados := Lineas(dets);
      r := InsertarYContar(reg, contFacturas, ultimoDet);
      assert Lineas(dets) == numerados;
      assert Registro(cab) == reg;
    }

    /** The store half of `Persistir`: inserts `reg` and, once it is in,
        writes `cont_facturas` and then `cont_facturas_det`; the first failed
        write ends the commit with the invoice already stored. */
    method InsertarYContar(reg: FacturaRegistro, contFacturas: Int32, ultimoDet: Int32) returns (r: Result<(), Error>)
      requires CONT_FACTURAS !in managerDAO.consultaFalla && CONT_FACTURAS in managerDAO.parametros
      requires CONT_FACTURAS_DET !in managerDAO.consultaFalla && CONT_FACTURAS_DET in managerDAO.parametros
      modifies managerDAO`facturas, managerDAO`parametros
      ensures !Admite(old(managerDAO.facturas), managerDAO.insercionFalla, reg) ==>
        && r == Err(InsercionFallida)
        && managerDAO.facturas == old(managerDAO.facturas) && managerDAO.parametros == old(managerDAO.parametros)
      ensures Admite(old(managerDAO.facturas), managerDAO.insercionFalla, reg) ==>
        && r == ResultadoGuardar(Ok(reg), managerDAO.actualizacionFalla)
        && managerDAO.facturas == old(managerDAO.facturas)[reg.numeroFactura.value := reg]
        && managerDAO.parametros == ContadoresEscritos(old(managerDAO.parametros), managerDAO.actualizacionFalla,
                                                       contFacturas, ultimoDet)
    {
      var insertado := managerDAO.Insertar(reg);
      if !insertado {
        return Err(InsercionFallida);
      }
      assert CONT_FACTURAS in managerDAO.parametros && CONT_FACTURAS_DET in managerDAO.parametros;
      var escritoF := ActualizarContador(CONT_FACTURAS, contFacturas);
      if !escritoF {
        return Err(ContadorNoActualizado(CONT_FACTURAS));
      }
      var escritoD := ActualizarContador(CONT_FACTURAS_DET, ultimoDet);
      if !escritoD {
        return Err(ContadorNoActualizado(CONT_FACTURAS_DET));
      }
      r := Ok(());
    }
  }
}
