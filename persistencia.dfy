/** The persistence layer, as the workflow sees it: an id-keyed parameter
    table, customer and product tables, and an invoice table whose `insert`
    either applies completely or fails and changes nothing. */
module Persistencia {
  import opened Wrappers
  import opened Texto
  import opened Entidades

  /** A persisted line item. */
  datatype LineaRegistro = LineaRegistro(
    numeroFacturaDet: Option<Int32>,
    cantidad: Int32,
    precioUnitarioVenta: real,
    producto: Producto)

  /** A persisted invoice: the header's fields and its lines, as they were
      when the header was inserted. */
  datatype FacturaRegistro = FacturaRegistro(
    numeroFactura: Option<string>,
    fechaEmision: Option<Fecha>,
    cliente: Option<Cliente>,
    subtotal: Option<real>,
    valorIva: Option<real>,
    baseCero: Option<real>,
    total: Option<real>,
    lineas: seq<LineaRegistro>)

  /** The line rows a header and its line objects are written as. */
  function Lineas(dets: seq<FacturaDet>): (ls: seq<LineaRegistro>)
    reads set d: object | d in dets
    ensures |ls| == |dets|
  {
    if |dets| == 0 then []
    else Lineas(dets[..|dets| - 1]) + [LineaDe(dets[|dets| - 1])]
  }

  /** The row one line object is written as. */
  function LineaDe(d: FacturaDet): LineaRegistro
    reads d
  {
    LineaRegistro(d.numeroFacturaDet, d.cantidad, d.precioUnitarioVenta, d.producto)
  }

  /** Row `i` is line `i` as it stands. */
  lemma {:induction false} LineasPuntual(dets: seq<FacturaDet>)
    ensures forall i | 0 <= i < |dets| :: Lineas(dets)[i] == LineaDe(dets[i])
  {
    if |dets| > 0 {
      LineasPuntual(dets[..|dets| - 1]);
    }
  }

  /** The record a header is written as. */
  function Registro(cab: FacturaCab): FacturaRegistro
    reads cab, if cab.facturaDets.Some? then set d: object | d in cab.facturaDets.value else {}
  {
    FacturaRegistro(cab.numeroFactura, cab.fechaEmision, cab.cliente, cab.subtotal, cab.valorIva,
                    cab.baseCero, cab.total, if cab.facturaDets.Some? then Lineas(cab.facturaDets.value) else [])
  }

  /** Sum of quantity times sale price over persisted lines. */
  function SumaImportes(ls: seq<LineaRegistro>): real
  {
    if |ls| == 0 then 0.0
    else SumaImportes(ls[..|ls| - 1]) + ls[|ls| - 1].cantidad as real * ls[|ls| - 1].precioUnitarioVenta
  }

  /** The line ids present on some lines. */
  function IdsDe(ls: seq<LineaRegistro>): set<Int32>
  {
    set l | l in ls && l.numeroFacturaDet.Some? :: l.numeroFacturaDet.value
  }

  /** Every line id already used by a persisted invoice. */
  function IdsUsados(facturas: map<string, FacturaRegistro>): set<Int32>
  {
    set k, l | k in facturas && l in facturas[k].lineas && l.numeroFacturaDet.Some? :: l.numeroFacturaDet.value
  }

  /** Storing one more invoice adds exactly its line ids to the used ones. */
  lemma IdsUsadosTrasInsertar(facturas: map<string, FacturaRegistro>, k: string, reg: FacturaRegistro)
    requires k !in facturas
    ensures IdsUsados(facturas[k := reg]) == IdsUsados(facturas) + IdsDe(reg.lineas)
  {
    var nuevo := facturas[k := reg];
    forall id | id in IdsUsados(nuevo) ensures id in IdsUsados(facturas) + IdsDe(reg.lineas) {
      var k', l :| k' in nuevo && l in nuevo[k'].lineas && l.numeroFacturaDet.Some? && l.numeroFacturaDet.value == id;
      if k' != k {
        assert k' in facturas && l in facturas[k'].lineas;
      }
    }
    forall id | id in IdsUsados(facturas) + IdsDe(reg.lineas) ensures id in IdsUsados(nuevo) {
      if id in IdsDe(reg.lineas) {
        var l :| l in reg.lineas && l.numeroFacturaDet.Some? && l.numeroFacturaDet.value == id;
        assert k in nuevo && l in nuevo[k].lineas;
      } else {
        var k', l :| k' in facturas && l in facturas[k'].lineas && l.numeroFacturaDet.Some? && l.numeroFacturaDet.value == id;
        assert k' in nuevo && l in nuevo[k'].lineas;
      }
    }
  }

  /** Every line carries an id and no two lines carry the same one. */
  predicate IdsPropios(ls: seq<LineaRegistro>)
  {
    (forall i | 0 <= i < |ls| :: ls[i].numeroFacturaDet.Some?) &&
    forall i, j | 0 <= i < j < |ls| :: IdLinea(ls, i) != IdLinea(ls, j)
  }

  /** The id of line `i`. */
  function IdLinea(ls: seq<LineaRegistro>, i: nat): Option<Int32>
    requires i < |ls|
  {
    ls[i].numeroFacturaDet
  }

  /** What a lookup by id through the persistence layer yields: the row's
      value, no row (`null`), or an exception from the layer itself. */
  datatype Consulta<+T> = Lanza | Nulo | Valor(valor: T)

  /** `findById(Parametro.class, nombre)` on a parameter table whose lookups
      of the names in `consultaFalla` raise a persistence error. */
  function BuscarParametro(parametros: map<string, string>, consultaFalla: set<string>, nombre: string): Consulta<string>
  {
    if nombre in consultaFalla then Lanza
    else if nombre in parametros then Valor(parametros[nombre])
    else Nulo
  }

  /** An insert succeeds when the layer accepts writes and the record's
      primary keys are present and new: the invoice number, and every line
      id, distinct among the lines and from every line id already stored. */
  predicate Admite(facturas: map<string, FacturaRegistro>, insercionFalla: bool, reg: FacturaRegistro)
  {
    && !insercionFalla
    && reg.numeroFactura.Some?
    && reg.numeroFactura.value !in facturas
    && IdsPropios(reg.lineas)
    && forall l | l in reg.lineas :: l.numeroFacturaDet.value !in IdsUsados(facturas)
  }

  class Almacen {
    /** The parameter table: name to text value. */
    var parametros: map<string, string>
    var clientes: map<string, Cliente>
    var productos: map<Int32, Producto>
    var facturas: map<string, FacturaRegistro>
    /** Names of the parameters whose lookup raises a persistence error
        (a condition of the environment, not of the data). */
    var consultaFalla: set<string>
    /** The persistence layer currently rejects every insert. */
    var insercionFalla: bool
    /** Names of the parameter rows whose update (merge and commit) fails and
        is rolled back. */
    var actualizacionFalla: set<string>

    constructor (parametros: map<string, string>, clientes: map<string, Cliente>,
                 productos: map<Int32, Producto>, consultaFalla: set<string>, insercionFalla: bool,
                 actualizacionFalla: set<string>)
      ensures this.parametros == parametros && this.clientes == clientes && this.productos == productos
      ensures this.consultaFalla == consultaFalla && this.insercionFalla == insercionFalla
      ensures this.actualizacionFalla == actualizacionFalla
      ensures facturas == map[]
    {
      this.parametros := parametros;
      this.clientes := clientes;
      this.productos := productos;
      this.consultaFalla := consultaFalla;
      this.insercionFalla := insercionFalla;
      this.actualizacionFalla := actualizacionFalla;
      facturas := map[];
    }

    /** `insertar`: all or nothing. */
    method Insertar(reg: FacturaRegistro) returns (ok: bool)
      modifies this`facturas
      ensures ok == Admite(old(facturas), insercionFalla, reg)
      ensures facturas == if ok then old(facturas)[reg.numeroFactura.value := reg] else old(facturas)
    {
      ok := Admite(facturas, insercionFalla, reg);
      if ok {
        facturas := facturas[reg.numeroFactura.value := reg];
      }
    }

    /** `actualizar` of a parameter row: a merge that gives the row the new
        value, or, when the update of that row fails, a rollback that changes
        nothing. */
    method ActualizarParametro(nombre: string, valor: string) returns (ok: bool)
      modifies this`parametros
      ensures ok == (nombre !in actualizacionFalla)
      ensures parametros == if ok then old(parametros)[nombre := valor] else old(parametros)
    {
      ok := nombre !in actualizacionFalla;
      if ok {
        parametros := parametros[nombre := valor];
      }
    }
  }
}
