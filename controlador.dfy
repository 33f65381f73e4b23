/** The session controller (`BeanFactura`): the form fields a user fills in,
    the invoice being built, and the actions that forward to the business
    rules and turn their failures into messages. */
module Controlador {
  import opened Wrappers
  import opened Texto
  import opened Entidades
  import opened Persistencia
  import opened Facturacion

  /** The messages an action shows: the warning for an invoice already saved,
      or the message of the failure the business rules raised. */
  datatype Mensaje = FacturaYaGuardada | Fallo(error: Error)

  /** The messages for a call to the business rules that ended with `r`. */
  function MensajesDe(r: Result<(), Error>): seq<Mensaje>
  {
    if r.Err? then [Fallo(r.error)] else []
  }

  class BeanFactura {
    var cedulaCliente: Option<string>
    const managerFacturacion: ManagerFacturacion
    var codigoProducto: Option<Int32>
    var cantidadProducto: Option<Int32>
    var facturaCabTmp: FacturaCab?
    var facturaCabTmpGuardada: bool

    /** A session over the business rules `managerFacturacion`, with every
        form field empty and no invoice. */
    constructor (managerFacturacion: ManagerFacturacion)
      ensures this.managerFacturacion == managerFacturacion
      ensures cedulaCliente == None && codigoProducto == None && cantidadProducto == None
      ensures facturaCabTmp == null && !facturaCabTmpGuardada
    {
      this.managerFacturacion := managerFacturacion;
      cedulaCliente := None;
      codigoProducto := None;
      cantidadProducto := None;
      facturaCabTmp := null;
      facturaCabTmpGuardada := false;
    }

    /** `crearNuevaFactura`: starts a new invoice dated `ahora` and resets the
        form: no customer id, product code and quantity 0, not saved. */
    method CrearNuevaFactura(ahora: Fecha)
      modifies this
      ensures facturaCabTmp != null && fresh(facturaCabTmp)
      ensures facturaCabTmp.Campos() == CamposCab(None, None, Some(ahora), None, None, None, None, Some([]))
      ensures cedulaCliente == None && codigoProducto == Some(0) && cantidadProducto == Some(0)
      ensures !facturaCabTmpGuardada
    {
      facturaCabTmp := managerFacturacion.CrearFacturaTmp(ahora);
      cedulaCliente := None;
      codigoProducto := Some(0);
      cantidadProducto := Some(0);
      facturaCabTmpGuardada := false;
    }

    /** `asignarCliente`: warns when the invoice is already saved, and then
        assigns the customer anyway; a failure becomes a message. */
    method AsignarCliente() returns (mensajes: seq<Mensaje>)
      modifies facturaCabTmp
      ensures var v := ClienteAsignable(facturaCabTmp != null, cedulaCliente, managerFacturacion.managerDAO.clientes);
        mensajes == (if facturaCabTmpGuardada then [FacturaYaGuardada] else []) + (if v.Err? then [Fallo(v.error)] else [])
      ensures facturaCabTmp != null ==>
        var v := ClienteAsignable(true, cedulaCliente, managerFacturacion.managerDAO.clientes);
        facturaCabTmp.Campos() == old(facturaCabTmp.Campos()).(cliente := if v.Ok? then Some(v.value) else old(facturaCabTmp.cliente))
    {
      mensajes := [];
      if facturaCabTmpGuardada {
        mensajes := [FacturaYaGuardada];
      }
      var r := managerFacturacion.AsignarClienteFacturaTmp(facturaCabTmp, cedulaCliente);
      mensajes := mensajes + MensajesDe(r);
    }

    /** `asignarCliente` with the early return the other actions have: on a
        saved invoice it only warns. */
    method AsignarClienteCorregido() returns (mensajes: seq<Mensaje>)
      modifies facturaCabTmp
      ensures facturaCabTmpGuardada ==> mensajes == [FacturaYaGuardada] && (facturaCabTmp != null ==> unchanged(facturaCabTmp))
      ensures !facturaCabTmpGuardada ==>
        var v := ClienteAsignable(facturaCabTmp != null, cedulaCliente, managerFacturacion.managerDAO.clientes);
        && mensajes == (if v.Err? then [Fallo(v.error)] else [])
        && (facturaCabTmp != null ==>
              facturaCabTmp.Campos() == old(facturaCabTmp.Campos()).(cliente := if v.Ok? then Some(v.value) else old(facturaCabTmp.cliente)))
    {
      if facturaCabTmpGuardada {
        return [FacturaYaGuardada];
      }
      var r := managerFacturacion.AsignarClienteFacturaTmp(facturaCabTmp, cedulaCliente);
      mensajes := MensajesDe(r);
    }

    /** `insertarDetalle`: on a saved invoice only warns; otherwise adds the
        line for the form's product and quantity and, on success, resets both
        fields to 0. */
    method InsertarDetalle() returns (mensajes: seq<Mensaje>)
      modifies this`codigoProducto, this`cantidadProducto, facturaCabTmp
      ensures facturaCabTmpGuardada ==>
        && mensajes == [FacturaYaGuardada]
        && codigoProducto == old(codigoProducto) && cantidadProducto == old(cantidadProducto)
        && (facturaCabTmp != null ==> unchanged(facturaCabTmp))
      ensures !facturaCabTmpGuardada ==>
        var v := ProductoAgregable(facturaCabTmp != null, facturaCabTmp != null && old(facturaCabTmp.facturaDets).Some?,
                                   old(codigoProducto), old(cantidadProducto), managerFacturacion.managerDAO.productos);
        var pct := PorcentajeIva(managerFacturacion.managerDAO.parametros, managerFacturacion.managerDAO.consultaFalla);
        && (v.Err? ==> mensajes == [Fallo(v.error)] && (facturaCabTmp != null ==> unchanged(facturaCabTmp)))
        && (v.Ok? && pct.Err? ==> mensajes == [Fallo(pct.error)] && facturaCabTmp != null
                                  && facturaCabTmp.subtotal == old(facturaCabTmp.subtotal)
                                  && facturaCabTmp.valorIva == old(facturaCabTmp.valorIva)
                                  && facturaCabTmp.baseCero == old(facturaCabTmp.baseCero)
                                  && facturaCabTmp.total == old(facturaCabTmp.total))
        && (v.Ok? && pct.Ok? ==> mensajes == [] && TotalesAlDia(facturaCabTmp, managerFacturacion.managerDAO.parametros,
                                                                 managerFacturacion.managerDAO.consultaFalla))
        && (mensajes == [] ==> codigoProducto == Some(0) && cantidadProducto == Some(0))
        && (mensajes != [] ==> codigoProducto == old(codigoProducto) && cantidadProducto == old(cantidadProducto))
      ensures !facturaCabTmpGuardada && facturaCabTmp != null ==>
        var v := ProductoAgregable(true, old(facturaCabTmp.facturaDets).Some?,
                                   old(codigoProducto), old(cantidadProducto), managerFacturacion.managerDAO.productos);
        v.Ok? ==>
          var antes := old(facturaCabTmp.facturaDets).value;
          && facturaCabTmp.facturaDets.Some?
          && |facturaCabTmp.facturaDets.value| == |antes| + 1
          && facturaCabTmp.facturaDets.value[..|antes|] == antes
          && fresh(facturaCabTmp.facturaDets.value[|antes|])
          && facturaCabTmp.facturaDets.value[|antes|].cantidad == old(cantidadProducto).value
          && facturaCabTmp.facturaDets.value[|antes|].producto == v.value
          && facturaCabTmp.facturaDets.value[|antes|].precioUnitarioVenta == v.value.precioUnitario
          && facturaCabTmp.facturaDets.value[|antes|].numeroFacturaDet == None
          && facturaCabTmp.facturaDets.value[|antes|].facturaCab == null
      ensures facturaCabTmp != null ==>
        && facturaCabTmp.numeroFactura == old(facturaCabTmp.numeroFactura)
        && facturaCabTmp.fechaEmision == old(facturaCabTmp.fechaEmision)
        && facturaCabTmp.cliente == old(facturaCabTmp.cliente)
    {
      if facturaCabTmpGuardada {
        return [FacturaYaGuardada];
      }
      var r := managerFacturacion.AgregarDetalleFacturaTmp(facturaCabTmp, codigoProducto, cantidadProducto);
      if r.Ok? {
        codigoProducto := Some(0);
        cantidadProducto := Some(0);
      }
      mensajes := MensajesDe(r);
    }

    /** `guardarFactura`: on a saved invoice only warns; otherwise commits it
        and, when the commit returns normally, marks it saved. A saved invoice
        is therefore never stored twice. A counter write that fails after the
        insert leaves the invoice stored but not marked saved. */
    method GuardarFactura(ahora: Fecha) returns (mensajes: seq<Mensaje>)
      modifies this`facturaCabTmpGuardada
      modifies if facturaCabTmp != null then facturaCabTmp.Huella() else {}
      modifies managerFacturacion.managerDAO`facturas, managerFacturacion.managerDAO`parametros
      ensures old(facturaCabTmpGuardada) ==>
        && mensajes == [FacturaYaGuardada] && facturaCabTmpGuardada
        && managerFacturacion.managerDAO.facturas == old(managerFacturacion.managerDAO.facturas)
        && managerFacturacion.managerDAO.parametros == old(managerFacturacion.managerDAO.parametros)
        && (facturaCabTmp != null ==> unchanged(facturaCabTmp))
      ensures facturaCabTmp != null ==> facturaCabTmp.facturaDets == old(facturaCabTmp.facturaDets)
      ensures !old(facturaCabTmpGuardada) ==>
        var dao := managerFacturacion.managerDAO;
        var v := old(managerFacturacion.ConfirmacionDe(facturaCabTmp, ahora));
        var r := ResultadoGuardar(v, dao.actualizacionFalla);
        && (facturaCabTmpGuardada <==> r.Ok?)
        && (r.Ok? ==> mensajes == [])
        && (r.Err? ==> mensajes == [Fallo(r.error)])
        && (v.Err? ==> dao.facturas == old(dao.facturas) && dao.parametros == old(dao.parametros))
        && (v.Ok? ==> facturaCabTmp != null && facturaCabTmp.facturaDets.Some? &&
                      dao.facturas == old(dao.facturas)[v.value.numeroFactura.value := v.value] &&
                      Registro(facturaCabTmp) == v.value)
      ensures !old(facturaCabTmpGuardada) && old(managerFacturacion.ConfirmacionDe(facturaCabTmp, ahora)).Ok? ==>
        var dao := managerFacturacion.managerDAO;
        var c := old(LeerContador(dao.parametros, dao.consultaFalla, CONT_FACTURAS)).value;
        var d := old(LeerContador(dao.parametros, dao.consultaFalla, CONT_FACTURAS_DET)).value;
        facturaCabTmp != null && facturaCabTmp.facturaDets.Some? &&
        dao.parametros == ContadoresEscritos(old(dao.parametros), dao.actualizacionFalla,
                                             Inc32(c), Avanzar(d, |facturaCabTmp.facturaDets.value|))
      ensures !old(facturaCabTmpGuardada) && facturaCabTmp != null ==>
        var dao := managerFacturacion.managerDAO;
        var antes := old(facturaCabTmp.Campos());
        && facturaCabTmp.Campos() == CamposTrasGuardar(antes, ahora, old(dao.parametros), dao.consultaFalla)
        && (antes.facturaDets.None? || |antes.facturaDets.value| == 0 || antes.cliente.None? ==> unchanged(facturaCabTmp))
        && (LlegaANumerar(antes, old(dao.parametros), dao.consultaFalla) ==>
              var d := old(LeerContador(dao.parametros, dao.consultaFalla, CONT_FACTURAS_DET)).value;
              && Lineas(facturaCabTmp.facturaDets.value) == LineasNumeradas(facturaCabTmp.facturaDets.value, d)
              && (forall det | det in facturaCabTmp.facturaDets.value :: det.facturaCab == facturaCabTmp))
        && (facturaCabTmp.facturaDets.Some? && antes.facturaDets.Some? &&
            !LlegaANumerar(antes, old(dao.parametros), dao.consultaFalla) ==>
              Enlaces(facturaCabTmp.facturaDets.value) == old(Enlaces(facturaCabTmp.facturaDets.value)))
    {
      if facturaCabTmpGuardada {
        return [FacturaYaGuardada];
      }
      var r := managerFacturacion.GuardarFacturaTemporal(facturaCabTmp, ahora);
      if r.Ok? {
        facturaCabTmpGuardada := true;
      }
      mensajes := MensajesDe(r);
    }

    method SetCedulaCliente(cedulaCliente: Option<string>)
      modifies this`cedulaCliente
      ensures this.cedulaCliente == cedulaCliente
    {
      this.cedulaCliente := cedulaCliente;
    }

    method SetCodigoProducto(codigoProducto: Option<Int32>)
      modifies this`codigoProducto
      ensures this.codigoProducto == codigoProducto
    {
      this.codigoProducto := codigoProducto;
    }

    method SetCantidadProducto(cantidadProducto: Option<Int32>)
      modifies this`cantidadProducto
      ensures this.cantidadProducto == cantidadProducto
    {
      this.cantidadProducto := cantidadProducto;
    }

    method SetFacturaCabTmp(facturaCabTmp: FacturaCab?)
      modifies this`facturaCabTmp
      ensures this.facturaCabTmp == facturaCabTmp
    {
      this.facturaCabTmp := facturaCabTmp;
    }

    method SetFacturaCabTmpGuardada(facturaCabTmpGuardada: bool)
      modifies this`facturaCabTmpGuardada
      ensures this.facturaCabTmpGuardada == facturaCabTmpGuardada
    {
      this.facturaCabTmpGuardada := facturaCabTmpGuardada;
    }
  }
}
