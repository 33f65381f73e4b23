/** Concrete sessions over the controller: one invoice built and saved end to
    end, the customer change after saving, and the commit values when a
    counter write fails after the insert. */
module Escenarios {
  import opened Wrappers
  import opened Texto
  import opened Entidades
  import opened Persistencia
  import opened Facturacion
  import opened Controlador

  const CLIENTE: Cliente := Cliente("0102030405", "Perez", "Ana", "Quito")
  const OTRO_CLIENTE: Cliente := Cliente("1712345678", "Mora", "Luis", "Ibarra")
  const PRODUCTO: Producto := Producto(7, "Cuaderno", "100 hojas", 50, 10.0, "S")

  /** Counters at "100" and "200", tax rate "12", one customer and product 7
      at 10.00; every query and update succeeds. */
  method AlmacenInicial() returns (dao: Almacen)
    ensures fresh(dao)
    ensures dao.parametros == map[CONT_FACTURAS := "100", CONT_FACTURAS_DET := "200", VALOR_IVA := "12"]
    ensures dao.clientes == map[CLIENTE.cedulaCliente := CLIENTE, OTRO_CLIENTE.cedulaCliente := OTRO_CLIENTE]
    ensures dao.productos == map[7 := PRODUCTO]
    ensures dao.facturas == map[] && dao.consultaFalla == {} && !dao.insercionFalla
    ensures dao.actualizacionFalla == {}
  {
    dao := new Almacen(map[CONT_FACTURAS := "100", CONT_FACTURAS_DET := "200", VALOR_IVA := "12"],
                       map[CLIENTE.cedulaCliente := CLIENTE, OTRO_CLIENTE.cedulaCliente := OTRO_CLIENTE],
                       map[7 := PRODUCTO], {}, false, {});
  }

  /** `Integer.toString` of the numbers the example writes and reads. */
  lemma Textos()
    ensures IntToString(100) == "100" && IntToString(200) == "200"
    ensures IntToString(101) == "101" && IntToString(201) == "201"
    ensures IntToString(12) == "12"
  {
    assert NatATexto(1) == "1" && NatATexto(2) == "2";
    assert NatATexto(10) == "10" && NatATexto(20) == "20" && NatATexto(12) == "12";
    assert NatATexto(100) == "100" && NatATexto(200) == "200";
    assert NatATexto(101) == "101" && NatATexto(201) == "201";
  }

  /** The texts of the initial parameter table read as the numbers they show. */
  lemma LecturasIniciales(parametros: map<string, string>)
    requires parametros == map[CONT_FACTURAS := "100", CONT_FACTURAS_DET := "200", VALOR_IVA := "12"]
    ensures LeerContador(parametros, {}, CONT_FACTURAS) == Ok(100)
    ensures LeerContador(parametros, {}, CONT_FACTURAS_DET) == Ok(200)
    ensures PorcentajeIva(parametros, {}) == Ok(12.0)
  {
    Textos();
    assert parametros[CONT_FACTURAS := IntToString(100)] == parametros;
    assert parametros[CONT_FACTURAS_DET := IntToString(200)] == parametros;
    assert parametros[VALOR_IVA := IntToString(12)] == parametros;
    ContadorEscrito(parametros, {}, CONT_FACTURAS, 100);
    ContadorEscrito(parametros, {}, CONT_FACTURAS_DET, 200);
    PorcentajeIvaDeEntero(parametros, {}, 12);
  }

  /** The parameter table of `AlmacenInicial`. */
  const PARAMETROS: map<string, string> := map[CONT_FACTURAS := "100", CONT_FACTURAS_DET := "200", VALOR_IVA := "12"]

  /** The record the example stores. */
  const REGISTRO: FacturaRegistro :=
    FacturaRegistro(Some("101"), Some(Fecha(1)), Some(CLIENTE), Some(30.0), Some(3.6), Some(0.0),
                    Some(33.6), [LineaRegistro(Some(201), 3, 10.0, PRODUCTO)])

  /** One line of three units at 10.00 with tax rate 12: subtotal 30.00, tax
      3.60, total 33.60. */
  lemma TotalesDeEjemplo(det: FacturaDet)
    requires det.cantidad == 3 && det.precioUnitarioVenta == 10.0
    ensures CalcularTotales(SumaDetalles([det]), 12.0) == Totales(30.0, 3.6, 0.0, 33.6)
  {
  }

  /** The record built from one line of three units at 10.00, counters 100
      and 200 and tax rate 12 is `REGISTRO`. */
  lemma RegistroDeEjemplo(det: FacturaDet)
    requires det.cantidad == 3 && det.precioUnitarioVenta == 10.0 && det.producto == PRODUCTO
    ensures RegistroEsperado([det], Some(CLIENTE), Fecha(1), 100, 200, 12.0) == REGISTRO
  {
    TotalesDeEjemplo(det);
    assert UltimaPos([det], det) == 0;
    assert Avanzar(200, 1) == 201;
    Textos();
    var reg := RegistroEsperado([det], Some(CLIENTE), Fecha(1), 100, 200, 12.0);
    assert reg.lineas == [LineaRegistro(Some(201), 3, 10.0, PRODUCTO)];
  }

  /** An empty store accepts `REGISTRO`. */
  lemma AdmiteEjemplo()
    ensures Admite(map[], false, REGISTRO)
  {
  }

  /** Committing one line of three units at 10.00 on the initial store gives
      `REGISTRO`. */
  lemma ConfirmacionDeEjemplo(det: FacturaDet)
    requires det.cantidad == 3 && det.precioUnitarioVenta == 10.0 && det.producto == PRODUCTO
    ensures Confirmacion(true, Some([det]), Some(CLIENTE), Fecha(1), PARAMETROS, {}, map[], false) == Ok(REGISTRO)
  {
    LecturasIniciales(PARAMETROS);
    RegistroDeEjemplo(det);
    AdmiteEjemplo();
  }

  /** A new invoice on the initial store with customer "0102030405". */
  method FacturaConCliente() returns (bean: BeanFactura, mensajes: seq<Mensaje>)
    ensures fresh(bean) && fresh(bean.managerFacturacion) && fresh(bean.managerFacturacion.managerDAO)
    ensures var dao := bean.managerFacturacion.managerDAO;
      && dao.parametros == PARAMETROS && dao.facturas == map[] && dao.consultaFalla == {} && !dao.insercionFalla
      && dao.actualizacionFalla == {}
      && dao.productos == map[7 := PRODUCTO]
      && dao.clientes == map[CLIENTE.cedulaCliente := CLIENTE, OTRO_CLIENTE.cedulaCliente := OTRO_CLIENTE]
    ensures bean.facturaCabTmp != null && fresh(bean.facturaCabTmp) && !bean.facturaCabTmpGuardada
    ensures bean.facturaCabTmp.facturaDets == Some([]) && bean.facturaCabTmp.cliente == Some(CLIENTE)
    ensures mensajes == []
  {
    var dao := AlmacenInicial();
    var manager := new ManagerFacturacion(dao);
    bean := new BeanFactura(manager);
    bean.CrearNuevaFactura(Fecha(0));
    bean.SetCedulaCliente(Some(CLIENTE.cedulaCliente));
    mensajes := bean.AsignarCliente();
  }

  /** Then three units of product 7 at 10.00 with tax rate 12: subtotal
      30.00, tax 3.60, total 33.60. */
  method AgregarLineaEjemplo(bean: BeanFactura) returns (mensajes: seq<Mensaje>)
    requires var dao := bean.managerFacturacion.managerDAO;
      && PorcentajeIva(dao.parametros, dao.consultaFalla) == Ok(12.0) && 7 in dao.productos && dao.productos[7] == PRODUCTO
    requires bean.facturaCabTmp != null && !bean.facturaCabTmpGuardada
    requires bean.facturaCabTmp.facturaDets == Some([]) && bean.facturaCabTmp.cliente == Some(CLIENTE)
    modifies bean`codigoProducto, bean`cantidadProducto, bean.facturaCabTmp
    ensures bean.facturaCabTmp.facturaDets.Some? && fresh(bean.facturaCabTmp.facturaDets.value)
    ensures var cab := bean.facturaCabTmp;
      && |cab.facturaDets.value| == 1 && cab.cliente == Some(CLIENTE)
      && cab.facturaDets.value[0].cantidad == 3 && cab.facturaDets.value[0].precioUnitarioVenta == 10.0
      && cab.facturaDets.value[0].producto == PRODUCTO
      && cab.subtotal == Some(30.0) && cab.valorIva == Some(3.6) && cab.baseCero == Some(0.0) && cab.total == Some(33.6)
    ensures mensajes == []
  {
    bean.SetCodigoProducto(Some(7));
    bean.SetCantidadProducto(Some(3));
    mensajes := bean.InsertarDetalle();
    var dets := bean.facturaCabTmp.facturaDets.value;
    assert dets == [dets[0]];
    TotalesDeEjemplo(dets[0]);
  }

  /** The invoice of `FacturaConCliente` with that line. */
  method FacturaConLinea() returns (bean: BeanFactura, mensajes: seq<Mensaje>)
    ensures fresh(bean) && fresh(bean.managerFacturacion) && fresh(bean.managerFacturacion.managerDAO)
    ensures var dao := bean.managerFacturacion.managerDAO;
      && dao.parametros == PARAMETROS && dao.facturas == map[] && dao.consultaFalla == {} && !dao.insercionFalla
      && dao.actualizacionFalla == {}
      && dao.clientes == map[CLIENTE.cedulaCliente := CLIENTE, OTRO_CLIENTE.cedulaCliente := OTRO_CLIENTE]
    ensures bean.facturaCabTmp != null && !bean.facturaCabTmpGuardada && fresh(bean.facturaCabTmp.Huella())
    ensures var cab := bean.facturaCabTmp;
      && cab.facturaDets.Some? && |cab.facturaDets.value| == 1 && cab.cliente == Some(CLIENTE)
      && cab.facturaDets.value[0].cantidad == 3 && cab.facturaDets.value[0].precioUnitarioVenta == 10.0
      && cab.facturaDets.value[0].producto == PRODUCTO
      && cab.subtotal == Some(30.0) && cab.valorIva == Some(3.6) && cab.baseCero == Some(0.0) && cab.total == Some(33.6)
    ensures mensajes == []
  {
    var m1;
    bean, m1 := FacturaConCliente();
    LecturasIniciales(PARAMETROS);
    var m2 := AgregarLineaEjemplo(bean);
    mensajes := m1 + m2;
  }

  /** After one invoice of one line the counters 100 and 200 read "101" and
      "201". */
  lemma ContadoresDeEjemplo()
    ensures ContadoresTrasGuardar(PARAMETROS, 100, 200, 1) ==
      map[CONT_FACTURAS := "101", CONT_FACTURAS_DET := "201", VALOR_IVA := "12"]
  {
    Textos();
    assert Avanzar(200, 1) == 201;
  }

  /** Saving an unsaved invoice whose commit yields `reg`, with the counters
      at `c` and `d` and every update succeeding: it is stored under its
      number, marked saved, and the counters advance past it. */
  method PrimerGuardado(bean: BeanFactura, ghost reg: FacturaRegistro, ghost c: Int32, ghost d: Int32, ahora: Fecha)
      returns (mensajes: seq<Mensaje>)
    requires bean.facturaCabTmp != null && !bean.facturaCabTmpGuardada
    requires var dao := bean.managerFacturacion.managerDAO;
      && bean.managerFacturacion.ConfirmacionDe(bean.facturaCabTmp, ahora) == Ok(reg)
      && LeerContador(dao.parametros, dao.consultaFalla, CONT_FACTURAS) == Ok(c)
      && LeerContador(dao.parametros, dao.consultaFalla, CONT_FACTURAS_DET) == Ok(d)
      && dao.actualizacionFalla == {}
    modifies bean`facturaCabTmpGuardada, bean.facturaCabTmp.Huella()
    modifies bean.managerFacturacion.managerDAO`facturas, bean.managerFacturacion.managerDAO`parametros
    ensures mensajes == [] && bean.facturaCabTmpGuardada
    ensures bean.facturaCabTmp == old(bean.facturaCabTmp) && bean.facturaCabTmp.facturaDets.Some?
    ensures bean.facturaCabTmp.facturaDets == old(bean.facturaCabTmp.facturaDets)
    ensures bean.facturaCabTmp.cliente == old(bean.facturaCabTmp.cliente)
    ensures reg.numeroFactura == Some(IntToString(Inc32(c)))
    ensures bean.managerFacturacion.managerDAO.facturas ==
      old(bean.managerFacturacion.managerDAO.facturas)[IntToString(Inc32(c)) := reg]
    ensures bean.managerFacturacion.managerDAO.parametros ==
      ContadoresTrasGuardar(old(bean.managerFacturacion.managerDAO.parametros), c, d, |bean.facturaCabTmp.facturaDets.value|)
  {
    ghost var cab := bean.facturaCabTmp;
    ghost var dao := bean.managerFacturacion.managerDAO;
    CamposConservados(cab.Campos(), ahora, dao.parametros, dao.consultaFalla);
    assert bean !in cab.Huella();
    mensajes := bean.GuardarFactura(ahora);
  }

  /** Saving the invoice of `FacturaConLinea` on the initial store. */
  method GuardarEjemplo(bean: BeanFactura) returns (mensajes: seq<Mensaje>)
    requires var dao := bean.managerFacturacion.managerDAO;
      && dao.parametros == PARAMETROS && dao.facturas == map[] && dao.consultaFalla == {} && !dao.insercionFalla
      && dao.actualizacionFalla == {}
    requires bean.facturaCabTmp != null && !bean.facturaCabTmpGuardada
    requires var cab := bean.facturaCabTmp;
      && cab.facturaDets.Some? && |cab.facturaDets.value| == 1 && cab.cliente == Some(CLIENTE)
      && cab.facturaDets.value[0].cantidad == 3 && cab.facturaDets.value[0].precioUnitarioVenta == 10.0
      && cab.facturaDets.value[0].producto == PRODUCTO
    modifies bean`facturaCabTmpGuardada, bean.facturaCabTmp.Huella()
    modifies bean.managerFacturacion.managerDAO`facturas, bean.managerFacturacion.managerDAO`parametros
    ensures mensajes == [] && bean.facturaCabTmpGuardada
    ensures bean.facturaCabTmp == old(bean.facturaCabTmp) && bean.facturaCabTmp.cliente == Some(CLIENTE)
    ensures bean.facturaCabTmp.facturaDets == old(bean.facturaCabTmp.facturaDets)
    ensures bean.managerFacturacion.managerDAO.facturas == map["101" := REGISTRO]
    ensures bean.managerFacturacion.managerDAO.parametros ==
      map[CONT_FACTURAS := "101", CONT_FACTURAS_DET := "201", VALOR_IVA := "12"]
  {
    var cab := bean.facturaCabTmp;
    var det := cab.facturaDets.value[0];
    assert cab.facturaDets.value == [det];
    ConfirmacionDeEjemplo(det);
    LecturasIniciales(PARAMETROS);
    mensajes := PrimerGuardado(bean, REGISTRO, 100, 200, Fecha(1));
    ContadoresDeEjemplo();
  }

  /** The invoice of `FacturaConLinea`, saved. */
  method FacturaGuardada() returns (bean: BeanFactura, mensajes: seq<Mensaje>)
    ensures fresh(bean) && fresh(bean.managerFacturacion) && fresh(bean.managerFacturacion.managerDAO)
    ensures var dao := bean.managerFacturacion.managerDAO;
      && dao.facturas == map["101" := REGISTRO]
      && dao.parametros == map[CONT_FACTURAS := "101", CONT_FACTURAS_DET := "201", VALOR_IVA := "12"]
      && dao.clientes == map[CLIENTE.cedulaCliente := CLIENTE, OTRO_CLIENTE.cedulaCliente := OTRO_CLIENTE]
    ensures bean.facturaCabTmp != null && bean.facturaCabTmpGuardada && fresh(bean.facturaCabTmp.Huella())
    ensures bean.facturaCabTmp.cliente == Some(CLIENTE)
    ensures mensajes == []
  {
    var m12;
    bean, m12 := FacturaConLinea();
    var m3 := GuardarEjemplo(bean);
    mensajes := m12 + m3;
  }

  /** The whole session: saving the invoice stores it as invoice "101" with
      line 201 and moves the counters to "101" and "201"; saving again only
      warns and changes nothing. */
  method FacturaDeEjemplo() returns (mensajes: seq<Mensaje>, guardada: FacturaRegistro, contadores: map<string, string>)
    ensures mensajes == [FacturaYaGuardada]
    ensures guardada == REGISTRO
    ensures contadores == map[CONT_FACTURAS := "101", CONT_FACTURAS_DET := "201", VALOR_IVA := "12"]
  {
    var bean, m123 := FacturaGuardada();
    var dao := bean.managerFacturacion.managerDAO;
    var m4 := bean.GuardarFactura(Fecha(2));
    mensajes := m123 + m4;
    guardada := dao.facturas["101"];
    contadores := dao.parametros;
  }

  /** `asignarCliente` as written, on the saved invoice, with the other
      customer's id: it warns, and the header then names a customer other
      than the one its stored record holds. */
  method ClienteTrasGuardar() returns (mensajes: seq<Mensaje>, enCabecera: Option<Cliente>, guardado: Option<Cliente>)
    ensures mensajes == [FacturaYaGuardada]
    ensures enCabecera == Some(OTRO_CLIENTE) && guardado == Some(CLIENTE)
  {
    var bean, m123 := FacturaGuardada();
    var dao := bean.managerFacturacion.managerDAO;
    bean.SetCedulaCliente(Some(OTRO_CLIENTE.cedulaCliente));
    var m4 := bean.AsignarCliente();
    mensajes := m123 + m4;
    enCabecera := bean.facturaCabTmp.cliente;
    guardado := dao.facturas["101"].cliente;
  }

  /** The same session with the early return: the header keeps the customer
      of its stored record. */
  method ClienteTrasGuardarCorregido() returns (mensajes: seq<Mensaje>, enCabecera: Option<Cliente>, guardado: Option<Cliente>)
    ensures mensajes == [FacturaYaGuardada]
    ensures enCabecera == guardado == Some(CLIENTE)
  {
    var bean, m123 := FacturaGuardada();
    var dao := bean.managerFacturacion.managerDAO;
    bean.SetCedulaCliente(Some(OTRO_CLIENTE.cedulaCliente));
    var m4 := bean.AsignarClienteCorregido();
    mensajes := m123 + m4;
    enCabecera := bean.facturaCabTmp.cliente;
    guardado := dao.facturas["101"].cliente;
  }

  /** The session when `cont_facturas` cannot be updated, on the commit
      values the controller's contracts are stated in: the first save stores
      invoice "101" and reports the failed counter write while the counters
      keep their texts, and since the counter still reads "100", saving again
      draws "101" once more and the insert is rejected as a duplicate. */
  lemma ContadorNoActualizadoEjemplo(det: FacturaDet)
    requires det.cantidad == 3 && det.precioUnitarioVenta == 10.0 && det.producto == PRODUCTO
    ensures var v := Confirmacion(true, Some([det]), Some(CLIENTE), Fecha(1), PARAMETROS, {}, map[], false);
      && v == Ok(REGISTRO)
      && ResultadoGuardar(v, {CONT_FACTURAS}) == Err(ContadorNoActualizado(CONT_FACTURAS))
    ensures ContadoresEscritos(PARAMETROS, {CONT_FACTURAS}, 101, 201) == PARAMETROS
    ensures Confirmacion(true, Some([det]), Some(CLIENTE), Fecha(2), PARAMETROS, {}, map["101" := REGISTRO], false)
      == Err(InsercionFallida)
  {
    ConfirmacionDeEjemplo(det);
    ReintentoRechazado([det], Some(CLIENTE), Fecha(1), PARAMETROS, {}, map[], false,
                       [det], Some(CLIENTE), Fecha(2), false);
    assert map[][REGISTRO.numeroFactura.value := REGISTRO] == map["101" := REGISTRO];
  }
}
