/** The records the invoicing workflow reads and builds: customers and products
    (read-only values), and the invoice header with its line items (mutable
    objects, as the persistence entities are). */
module Entidades {
  import opened Wrappers
  import opened Texto

  /** A customer row, keyed by its national id (`cedulaCliente`). */
  datatype Cliente = Cliente(cedulaCliente: string, apellidos: string, nombres: string, direccion: string)

  /** A product row, keyed by `codigoProducto`; the unit price is an exact decimal. */
  datatype Producto = Producto(
    codigoProducto: Int32,
    nombre: string,
    descripcion: string,
    existencia: Int32,
    precioUnitario: real,
    tieneImpuesto: string)

  /** A point in time, as the caller's clock reports it (milliseconds). */
  datatype Fecha = Fecha(milisegundos: int)

  /** A line item. Quantity, sale price and product are fixed when the line is
      built; the line id and the back-reference to the header are stamped
      when the invoice is committed. */
  class FacturaDet {
    var numeroFacturaDet: Option<Int32>
    const cantidad: Int32
    const precioUnitarioVenta: real
    const producto: Producto
    var facturaCab: FacturaCab?

    constructor (cantidad: Int32, precioUnitarioVenta: real, producto: Producto)
      ensures this.cantidad == cantidad
      ensures this.precioUnitarioVenta == precioUnitarioVenta
      ensures this.producto == producto
      ensures numeroFacturaDet == None && facturaCab == null
    {
      this.cantidad := cantidad;
      this.precioUnitarioVenta := precioUnitarioVenta;
      this.producto := producto;
      numeroFacturaDet := None;
      facturaCab := null;
    }
  }

  /** Position of the first element identical to `x`, or `|s|` when there is none. */
  function Indice<T(==)>(s: seq<T>, x: T): (k: nat)
    ensures k <= |s|
    ensures x !in s[..k]
    ensures k < |s| <==> x in s
    ensures k < |s| ==> s[k] == x
  {
    if |s| == 0 then 0
    else if s[0] == x then 0
    else
      var k := 1 + Indice(s[1..], x);
      assert s[..k] == [s[0]] + s[1..][..k - 1];
      k
  }

  /** `list.remove(x)`: the list without the first element identical to `x`;
      the list itself when `x` does not occur. */
  function QuitarPrimero<T(==)>(s: seq<T>, x: T): (r: seq<T>)
    ensures x !in s ==> r == s
    ensures x in s ==> r == s[..Indice(s, x)] + s[Indice(s, x) + 1..]
  {
    if |s| == 0 then []
    else if s[0] == x then s[1..]
    else
      var r := [s[0]] + QuitarPrimero(s[1..], x);
      assert x in s ==> x in s[1..];
      ghost var k := Indice(s[1..], x);
      assert x in s ==> s[..k + 1] == [s[0]] + s[1..][..k] && s[k + 2..] == s[1..][k + 1..];
      r
  }

  /** Adding a line that was not yet present and then removing it gives back
      the original list. */
  lemma {:induction false} QuitarTrasAgregar<T>(s: seq<T>, x: T)
    requires x !in s
    ensures QuitarPrimero(s + [x], x) == s
  {
    if |s| > 0 {
      assert (s + [x])[1..] == s[1..] + [x];
      QuitarTrasAgregar(s[1..], x);
    }
  }

  /** The fields of a header, as one value. */
  datatype CamposCab = CamposCab(
    numeroFactura: Option<string>,
    baseCero: Option<real>,
    fechaEmision: Option<Fecha>,
    subtotal: Option<real>,
    total: Option<real>,
    valorIva: Option<real>,
    cliente: Option<Cliente>,
    facturaDets: Option<seq<FacturaDet>>)

  /** The invoice header (aggregate root). Every field is nullable, as in the
      entity; the derived totals are written only by the manager's
      recalculation. */
  class FacturaCab {
    var numeroFactura: Option<string>
    var baseCero: Option<real>
    var fechaEmision: Option<Fecha>
    var subtotal: Option<real>
    var total: Option<real>
    var valorIva: Option<real>
    var cliente: Option<Cliente>
    var facturaDets: Option<seq<FacturaDet>>

    ghost function Campos(): CamposCab
      reads this
    {
      CamposCab(numeroFactura, baseCero, fechaEmision, subtotal, total, valorIva, cliente, facturaDets)
    }

    /** The header and the line items it holds. */
    ghost function Huella(): set<object>
      reads this`facturaDets
    {
      {this} + (if facturaDets.Some? then set d: object | d in facturaDets.value else {})
    }

    constructor ()
      ensures numeroFactura == None && baseCero == None && fechaEmision == None
      ensures subtotal == None && total == None && valorIva == None
      ensures cliente == None && facturaDets == None
    {
      numeroFactura := None;
      baseCero := None;
      fechaEmision := None;
      subtotal := None;
      total := None;
      valorIva := None;
      cliente := None;
      facturaDets := None;
    }

    method SetNumeroFactura(v: Option<string>)
      modifies this`numeroFactura
      ensures numeroFactura == v
    {
      numeroFactura := v;
    }

    method SetBaseCero(v: Option<real>)
      modifies this`baseCero
      ensures baseCero == v
    {
      baseCero := v;
    }

    method SetFechaEmision(v: Option<Fecha>)
      modifies this`fechaEmision
      ensures fechaEmision == v
    {
      fechaEmision := v;
    }

    method SetSubtotal(v: Option<real>)
      modifies this`subtotal
      ensures subtotal == v
    {
      subtotal := v;
    }

    method SetTotal(v: Option<real>)
      modifies this`total
      ensures total == v
    {
      total := v;
    }

    method SetValorIva(v: Option<real>)
      modifies this`valorIva
      ensures valorIva == v
    {
      valorIva := v;
    }

    method SetCliente(v: Option<Cliente>)
      modifies this`cliente
      ensures cliente == v
    {
      cliente := v;
    }

    method SetFacturaDets(v: Option<seq<FacturaDet>>)
      modifies this`facturaDets
      ensures facturaDets == v
    {
      facturaDets := v;
    }

    /** Appends `d` to the line list and points `d` back at this header. */
    method AddFacturaDet(d: FacturaDet) returns (r: FacturaDet)
      requires facturaDets.Some?
      modifies this`facturaDets, d`facturaCab
      ensures r == d
      ensures facturaDets == Some(old(facturaDets.value) + [d])
      ensures d.facturaCab == this
    {
      facturaDets := Some(facturaDets.value + [d]);
      d.facturaCab := this;
      r := d;
    }

    /** Removes the first occurrence of `d` from the line list and clears its
        back-reference. */
    method RemoveFacturaDet(d: FacturaDet) returns (r: FacturaDet)
      requires facturaDets.Some?
      modifies this`facturaDets, d`facturaCab
      ensures r == d
      ensures facturaDets == Some(QuitarPrimero(old(facturaDets.value), d))
      ensures d.facturaCab == null
    {
      facturaDets := Some(QuitarPrimero(facturaDets.value, d));
      d.facturaCab := null;
      r := d;
    }
  }
}
