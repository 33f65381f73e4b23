# Invoicing core of `facturacion`, in Dafny

This project models the invoice-building workflow of the `facturacion` web
application. A session controller (`BeanFactura`):

- starts a temporary invoice header;
- assigns a customer to it;
- adds line items for products from the catalogue;
- commits the invoice.

The business rules (`ManagerFacturacion`) do four things:

- validate every step;
- recalculate subtotal, tax (the `valor_iva` parameter, a percentage) and total after each added line;
- number the invoice and its lines from the two counters of the parameter table (`cont_facturas`, `cont_facturas_det`);
- insert the header with its lines and write both counters back.

The persistence layer is modelled as a store object (`Almacen`). It has:

- a parameter table of name → text;
- customer and product tables;
- an invoice table whose insert either takes the whole record or fails and changes nothing;
- parameter updates that each commit on their own, or fail and are rolled back.

The model follows the code's form. Headers, lines, the store, the manager and
the controller are classes whose methods change their fields. Each method's
postcondition ties the outcome to a specification function:

- `ClienteAsignable` and `ProductoAgregable` for the checks;
- `PorcentajeIva` and `LeerContador` for the parameter reads;
- `CalcularTotales` and `SumaDetalles` for the totals;
- `Confirmacion` and `RegistroEsperado` for the commit.

Lemmas then prove what the workflow is meant to guarantee about those functions:

- the counters round-trip through `Integer.toString`/`Integer.parseInt`;
- line ids are consecutive;
- on a coherent store a commit never collides with a number already issued;
- a successful commit keeps the store coherent;
- a counter write that fails after the insert leaves it incoherent, and when it is the `cont_facturas` write that fails, every later commit is rejected.

Modules:

- `Wrappers`: `Option` and `Result`.
- `Texto`: Java `int` and its `++` wrap-around, `Integer.toString`, `Integer.parseInt`, and the plain-decimal part of `Double.parseDouble`.
- `Entidades`: customer and product values; the `FacturaDet` and `FacturaCab` entities.
- `Persistencia`: the store and the record an insert keeps.
- `Facturacion`: `ManagerFacturacion` and the specification functions and lemmas of the workflow.
- `Controlador`: `BeanFactura`.
- `Escenarios`: concrete sessions. The example invoice (three units at 10.00, tax rate 12, counters 100 and 200) is stored as invoice "101" with line 201, and the counters advance to "101" and "201". The customer-change sessions of the finding below are here too. So are the commit values when the update of `cont_facturas` fails.

Where the intended behaviour and the code differ, the model follows the code:

- **Commit order.** The counter writes and the insert are meant to form one atomic unit. The code inserts first and then writes each counter in its own transaction. A failed insert therefore leaves both counters as they were. A counter write that fails after the insert leaves the invoice stored with the counters partly written: the controller does not mark the invoice saved. When the `cont_facturas` update is the one that fails, every later commit draws the same number and is rejected as a duplicate.
- **Saved invoices.** Changing a committed header is meant to be refused. The code only warns, and `asignarCliente` goes on to change the customer (see Findings).
- **Tax rate.** The tax rate is 0 only when its lookup raises. A missing `valor_iva` row fails the recalculation.

Inputs the code takes from its environment are parameters of the model:

- the current date (`new Date()`) is the `ahora: Fecha` argument;
- whether a parameter lookup raises, whether the store rejects an insert, and which parameter updates fail are the store's `consultaFalla`, `insercionFalla` and `actualizacionFalla` fields.

## Model

| member | source | states |
|---|---|---|
| Texto.AvanzarSinDesborde | facturacion/src/facturacion/model/manager/ManagerFacturacion.java:352-354 | without overflow, n increments of the line counter add exactly n |
| Texto.ParseIntDeToString | facturacion/src/facturacion/model/manager/ManagerFacturacion.java:126-137 | a counter written with `Integer.toString` reads back with `Integer.parseInt` as the same `int`, for every `int` |
| Texto.IntToStringInyectiva | facturacion/src/facturacion/model/manager/ManagerFacturacion.java:340-343 | distinct counter values give distinct invoice numbers |
| Texto.ParseDecimalDeEntero | facturacion/src/facturacion/model/manager/ManagerFacturacion.java:108-118 | a tax rate stored as the text of any integer parses to that number |
| Entidades.FacturaDet.constructor | facturacion/src/facturacion/model/manager/ManagerFacturacion.java:313-316 | a new line carries the given quantity, sale price and product, with no id and no header |
| Entidades.FacturaCab.constructor | facturacion/src/facturacion/model/dao/entities/FacturaCab.java:47-48 | a new header has every field null |
| Entidades.FacturaCab.SetNumeroFactura | facturacion/src/facturacion/model/dao/entities/FacturaCab.java:54-56 | sets only the invoice number |
| Entidades.FacturaCab.SetBaseCero | facturacion/src/facturacion/model/dao/entities/FacturaCab.java:62-64 | sets only the zero-rated base |
| Entidades.FacturaCab.SetFechaEmision | facturacion/src/facturacion/model/dao/entities/FacturaCab.java:70-72 | sets only the issue date |
| Entidades.FacturaCab.SetSubtotal | facturacion/src/facturacion/model/dao/entities/FacturaCab.java:78-80 | sets only the subtotal, with no computation |
| Entidades.FacturaCab.SetTotal | facturacion/src/facturacion/model/dao/entities/FacturaCab.java:86-88 | sets only the total, with no computation |
| Entidades.FacturaCab.SetValorIva | facturacion/src/facturacion/model/dao/entities/FacturaCab.java:94-96 | sets only the tax amount, with no computation |
| Entidades.FacturaCab.SetCliente | facturacion/src/facturacion/model/dao/entities/FacturaCab.java:102-104 | sets only the customer |
| Entidades.FacturaCab.SetFacturaDets | facturacion/src/facturacion/model/dao/entities/FacturaCab.java:110-112 | sets only the line list |
| Entidades.FacturaCab.AddFacturaDet | facturacion/src/facturacion/model/dao/entities/FacturaCab.java:114-119 | appends the line at the end, points it back at this header, and returns that same line |
| Entidades.FacturaCab.RemoveFacturaDet | facturacion/src/facturacion/model/dao/entities/FacturaCab.java:121-126 | removes the first occurrence of the line (the list is unchanged when the line is absent), clears its back-reference, and returns it |
| Entidades.QuitarPrimero | facturacion/src/facturacion/model/dao/entities/FacturaCab.java:122 | `List.remove`: the list is unchanged when the element is absent; otherwise it loses exactly the first occurrence, with the prefix and suffix around it kept |
| Entidades.QuitarTrasAgregar | facturacion/src/facturacion/model/dao/entities/FacturaCab.java:114-126 | removing a line just added, that was not in the list before, gives back the original list |
| Persistencia.LineasPuntual | facturacion/src/facturacion/model/dao/entities/FacturaCab.java:43-45 | the i-th line row of an inserted header is the i-th line object as it stands |
| Persistencia.IdsUsadosTrasInsertar | facturacion/src/facturacion/model/manager/ManagerDAO.java:218-240 | storing one more invoice adds exactly its line ids to the ids in use |
| Persistencia.Almacen.constructor | facturacion/src/facturacion/model/manager/ManagerDAO.java:26-36 | a store holds the given tables and failure conditions; the starting tables and failure conditions are modelling choices that stand in for the database the constructor connects to |
| Persistencia.Almacen.Insertar | facturacion/src/facturacion/model/manager/ManagerDAO.java:218-240 | the insert succeeds iff the store accepts writes and the invoice number and every line id are present and new; on success the table gains exactly that record, and otherwise nothing changes |
| Persistencia.Almacen.ActualizarParametro | facturacion/src/facturacion/model/manager/ManagerDAO.java:287-303 | the merge of a parameter row succeeds iff that row's update does not fail; on success it sets that row's value and no other, and on failure it is rolled back and nothing changes |
| Facturacion.PorcentajeIvaDeEntero | facturacion/src/facturacion/model/manager/ManagerFacturacion.java:108-118 | if the `valor_iva` lookup does not raise, a row holding the text of any integer k gives the tax rate k |
| Facturacion.ContadorEscrito | facturacion/src/facturacion/model/manager/ManagerFacturacion.java:163-190 | after a counter is written back, reading it gives the value written |
| Facturacion.SumaDetallesConcat | facturacion/src/facturacion/model/manager/ManagerFacturacion.java:277-280 | the subtotal splits over concatenation, so adding a line adds its quantity times price |
| Facturacion.SumaPuntual | facturacion/src/facturacion/model/manager/ManagerFacturacion.java:277-280 | rows carrying the lines' quantities and prices add up to the header's subtotal |
| Facturacion.TotalesAcotados | facturacion/src/facturacion/model/manager/ManagerFacturacion.java:273-290 | with positive quantities, non-negative prices and a non-negative rate, the computed totals satisfy 0 <= subtotal <= total |
| Facturacion.NumerosDeLinea | facturacion/src/facturacion/model/manager/ManagerFacturacion.java:349-357 | with distinct line objects and no overflow, line i gets id d+i+1 |
| Facturacion.IdsNumerados | facturacion/src/facturacion/model/manager/ManagerFacturacion.java:349-357 | without overflow, every id the numbering stamps lies in d+1 .. d+n |
| Facturacion.RegistroEsperadoCompleto | facturacion/src/facturacion/model/manager/ManagerFacturacion.java:337-357 | once its line ids are distinct, the record a commit builds is complete (keyed by its number, with a customer and at least one line, a zero base of 0, and a subtotal and total that agree with its lines), and every id it stamps lies in d+1 .. d+n |
| Facturacion.NumeracionLibre | facturacion/src/facturacion/model/manager/ManagerFacturacion.java:328-360 | on a coherent store, with distinct line objects, readable parameters and no overflow, a commit that passes validation never collides with a stored invoice number or line id: the insert is admitted unless the store itself fails |
| Facturacion.ContadoresAvanzados | facturacion/src/facturacion/model/manager/ManagerFacturacion.java:362-364 | after a commit, without overflow, the counters read c+1 and d+n |
| Facturacion.CoherenciaTrasInsertar | facturacion/src/facturacion/model/manager/ManagerFacturacion.java:359-364 | inserting a complete invoice numbered c+1, with ids at most d+n, and advancing the counters keeps the store coherent |
| Facturacion.GuardarPreservaCoherencia | facturacion/src/facturacion/model/manager/ManagerFacturacion.java:328-367 | a successful commit on a coherent store without overflow leaves it coherent: the counters are readable and cover every number issued, and every stored invoice is complete |
| Facturacion.EscrituraParcialIncoherente | facturacion/src/facturacion/model/manager/ManagerFacturacion.java:359-364 | when a counter update fails after an admitted insert, the store is left incoherent: invoice number c+1 is stored while `cont_facturas` still reads c, or line ids above d are stored while `cont_facturas_det` still reads d |
| Facturacion.ReintentoRechazado | facturacion/src/facturacion/model/manager/ManagerFacturacion.java:337-360 | after an invoice is stored and the counters stay as they were, a later commit fails. On a header with lines and a customer it fails at the insert, because it draws the same number |
| Facturacion.CamposConservados | facturacion/src/facturacion/model/manager/ManagerFacturacion.java:328-367 | whatever its outcome, a commit leaves the header's line list and customer as they were |
| Facturacion.CamposSinNumero | facturacion/src/facturacion/model/manager/ManagerFacturacion.java:337-342 | on a validated, dated header, a failed `cont_facturas` read leaves every header field as it is and numbers no line |
| Facturacion.CamposAlNumerar | facturacion/src/facturacion/model/manager/ManagerFacturacion.java:341-343 | stamping the number drawn from `cont_facturas` changes neither what the commit leaves on the header nor whether it numbers the lines |
| Facturacion.NumerarDetalles | facturacion/src/facturacion/model/manager/ManagerFacturacion.java:349-357 | the numbering loop advances the line counter once per line, points every line back at the header, and stamps each line object with the id of its last position |
| Facturacion.LineasDeNumerados | facturacion/src/facturacion/model/manager/ManagerFacturacion.java:352-357 | lines stamped as the loop stamps them are written as the expected numbered rows |
| Facturacion.ManagerFacturacion.constructor | facturacion/src/facturacion/model/manager/ManagerFacturacion.java:21-23 | the manager works on the given store |
| Facturacion.ManagerFacturacion.ActualizarContador | facturacion/src/facturacion/model/manager/ManagerFacturacion.java:163-190 | the counter row is written as text iff its lookup neither raises nor finds no row and its update is not rolled back; afterwards it reads as the value written; no other row changes, and a failure changes nothing |
| Facturacion.ManagerFacturacion.CrearFacturaTmp | facturacion/src/facturacion/model/manager/ManagerFacturacion.java:240-245 | returns a fresh header with the issue date set, an empty line list, and no customer, number or totals |
| Facturacion.ManagerFacturacion.AsignarClienteFacturaTmp | facturacion/src/facturacion/model/manager/ManagerFacturacion.java:253-267 | fails for a null or empty id, an unknown customer, or a null header, in that order; otherwise sets the customer stored under the id; only `cliente` changes, and only on success |
| Facturacion.ManagerFacturacion.SumarSubtotales | facturacion/src/facturacion/model/manager/ManagerFacturacion.java:277-280 | the loop's sum is the sum of quantity times sale price over the lines |
| Facturacion.ManagerFacturacion.CalcularFacturaTmp | facturacion/src/facturacion/model/manager/ManagerFacturacion.java:273-290 | succeeds iff the tax rate can be read, and then the totals are current; a failed rate read changes nothing; on a header whose totals are already current it changes nothing |
| Facturacion.ManagerFacturacion.FijarTotales | facturacion/src/facturacion/model/manager/ManagerFacturacion.java:286-289 | sets subtotal, tax, a zero base of 0 and total; setting the values already there changes nothing |
| Facturacion.ManagerFacturacion.AgregarDetalleFacturaTmp | facturacion/src/facturacion/model/manager/ManagerFacturacion.java:299-321 | each check fails in source order and changes nothing. When all pass: one fresh, unnumbered line is appended with the quantity, the product and its current price, and the earlier lines are kept. The totals become current iff the tax rate can be read, and stay as they were otherwise. Number, date and customer never change |
| Facturacion.ManagerFacturacion.GuardarFacturaTemporal | facturacion/src/facturacion/model/manager/ManagerFacturacion.java:328-367 | fails with `Confirmacion`'s error when `Confirmacion` fails, and then the store is unchanged; validation failures also leave the header unchanged. When it succeeds: the header is written as the expected record; the header is stored under number c+1; every line points back at it. The counters are then written in order and the writes stop at the first failed update: both become c+1 and d+n, only the first does, or neither does. The result is success, or `ContadorNoActualizado` naming the counter whose update failed, with the invoice still stored. The line list never changes. Whatever the outcome, the header ends as `CamposTrasGuardar` prescribes: dated; numbered once `cont_facturas` reads; given current totals once the tax rate also reads; customer and line list kept. Once `cont_facturas_det` reads too, the lines carry their consecutive ids and point back at the header, even when the insert then fails. Before that point every line keeps its id and header link |
| Facturacion.ManagerFacturacion.Confirmar | facturacion/src/facturacion/model/manager/ManagerFacturacion.java:339-364 | from a dated, validated header: the same outcome, record and new state as `GuardarFacturaTemporal`, including the partial counter writes. The header ends as `CamposTrasGuardar` prescribes: numbered once `cont_facturas` reads, with current totals once the rate reads. The lines are numbered and linked once `cont_facturas_det` reads, and keep their ids and links otherwise |
| Facturacion.ManagerFacturacion.ConfirmarNumerada | facturacion/src/facturacion/model/manager/ManagerFacturacion.java:346-364 | from a header numbered after c: recalculates, then continues as `ConfirmarCalculada`. The outcome and store are as `Confirmacion` prescribes. A failed rate read stops with that error and leaves the totals, the lines and the store unchanged. Otherwise the totals become current. The lines are numbered and linked exactly when the rate and `cont_facturas_det` both read, and keep their ids and links otherwise |
| Facturacion.ManagerFacturacion.ConfirmarCalculada | facturacion/src/facturacion/model/manager/ManagerFacturacion.java:349-364 | from a numbered header with current totals: reads the line counter, then numbers, inserts and writes back as `Confirmacion` prescribes. A failure before the insert leaves the store unchanged. After the insert a failed counter update leaves the invoice stored and the counters partly written. The header itself never changes. When `cont_facturas_det` does not read, the lines keep their ids and links. When it reads, they are numbered and point back at the header, whatever the insert does |
| Facturacion.ManagerFacturacion.Persistir | facturacion/src/facturacion/model/manager/ManagerFacturacion.java:349-364 | numbers the lines, then inserts and writes the counters. The insert is admitted iff the store accepts the header's record. A rejected insert leaves the invoice table and both counters unchanged. After an admitted insert the counter writes stop at the first failed update, and the result names that counter |
| Facturacion.ManagerFacturacion.InsertarYContar | facturacion/src/facturacion/model/manager/ManagerFacturacion.java:359-364 | counters are written only after the insert returns, and each write is its own update. On rejection nothing changes. On success the record is stored, and `cont_facturas` and then `cont_facturas_det` are written up to the first failed update, which the result names |
| Controlador.BeanFactura.constructor | facturacion/src/facturacion/controller/BeanFactura.java:30-32 | a session starts with empty form fields and no invoice, not saved |
| Controlador.BeanFactura.CrearNuevaFactura | facturacion/src/facturacion/controller/BeanFactura.java:39-46 | a fresh header as `crearFacturaTmp` builds it; customer id null; product code and quantity 0; not saved |
| Controlador.BeanFactura.AsignarCliente | facturacion/src/facturacion/controller/BeanFactura.java:52-61 | as written: warns on a saved invoice and still performs the assignment, so a saved header's customer can change |
| Controlador.BeanFactura.AsignarClienteCorregido | facturacion/src/facturacion/controller/BeanFactura.java:52-61 | with the early return: on a saved invoice only warns and leaves the header unchanged |
| Controlador.BeanFactura.InsertarDetalle | facturacion/src/facturacion/controller/BeanFactura.java:68-81 | on a saved invoice only warns and changes nothing. Otherwise the line is added as `agregarDetalleFacturaTmp` prescribes. The new line has no id and no header. When the rate read then fails, its error is shown and the totals keep their values. Product code and quantity reset to 0 exactly when no error was shown |
| Controlador.BeanFactura.GuardarFactura | facturacion/src/facturacion/controller/BeanFactura.java:88-101 | on a saved invoice only warns, and the store is unchanged, so an invoice is never stored twice. Otherwise the commit runs and shows its error, if any. The flag becomes true exactly when the insert and both counter writes succeed. A failure before the insert leaves the store unchanged. After the insert the record is stored and the counters are written up to the first failed update. On an unsaved invoice the header ends as `CamposTrasGuardar` prescribes, and it is untouched when validation fails. The lines are numbered and linked once both counters and the rate read, and keep their ids and links otherwise |
| Controlador.BeanFactura.SetCedulaCliente | facturacion/src/facturacion/controller/BeanFactura.java:107-109 | sets only the customer id field |
| Controlador.BeanFactura.SetCodigoProducto | facturacion/src/facturacion/controller/BeanFactura.java:115-117 | sets only the product code field |
| Controlador.BeanFactura.SetCantidadProducto | facturacion/src/facturacion/controller/BeanFactura.java:123-125 | sets only the quantity field |
| Controlador.BeanFactura.SetFacturaCabTmp | facturacion/src/facturacion/controller/BeanFactura.java:163-165 | sets only the current header |
| Controlador.BeanFactura.SetFacturaCabTmpGuardada | facturacion/src/facturacion/controller/BeanFactura.java:176-178 | sets only the saved flag |
| Escenarios.LecturasIniciales | facturacion/src/facturacion/model/manager/ManagerFacturacion.java:108-156 | the parameter texts "100", "200" and "12" read as counters 100 and 200 and rate 12 |
| Escenarios.TotalesDeEjemplo | facturacion/src/facturacion/model/manager/ManagerFacturacion.java:273-290 | three units at 10.00 with rate 12 give subtotal 30.00, tax 3.60 and total 33.60 |
| Escenarios.RegistroDeEjemplo | facturacion/src/facturacion/model/manager/ManagerFacturacion.java:337-357 | that line committed from counters 100 and 200 is the record of invoice "101" with line 201 |
| Escenarios.AdmiteEjemplo | facturacion/src/facturacion/model/manager/ManagerDAO.java:218-240 | an empty store admits the example record |
| Escenarios.ConfirmacionDeEjemplo | facturacion/src/facturacion/model/manager/ManagerFacturacion.java:328-364 | on the initial store the commit of that line succeeds with that record |
| Escenarios.ContadoresDeEjemplo | facturacion/src/facturacion/model/manager/ManagerFacturacion.java:362-364 | the counters are written back as "101" and "201" |
| Escenarios.FacturaDeEjemplo | facturacion/src/facturacion/controller/BeanFactura.java:39-101 | the whole session stores invoice "101" and advances the counters; saving again only warns |
| Escenarios.ClienteTrasGuardar | facturacion/src/facturacion/controller/BeanFactura.java:52-61 | as written, assigning another customer to the saved invoice warns, and then the header names a customer other than its stored record's |
| Escenarios.ClienteTrasGuardarCorregido | facturacion/src/facturacion/controller/BeanFactura.java:52-61 | with the early return, the header keeps its stored record's customer |
| Escenarios.ContadorNoActualizadoEjemplo | facturacion/src/facturacion/model/manager/ManagerFacturacion.java:337-364 | with the update of `cont_facturas` failing: the example commit stores invoice "101" and reports the failed write; the counters keep "100" and "200"; the next commit is rejected at the insert |

## Left out

- Persistence internals are left out because they belong to the framework the code calls, not to the workflow. The model replaces them with the store's maps, an all-or-nothing insert, and the three failure conditions (`consultaFalla`, `insercionFalla`, `actualizacionFalla`). These internals are: JPA, the shared entity manager, transactions beyond each update committing or rolling back on its own, the database schema, and cascades.
- Texto.ParseInt: ASCII digits only. Java's `Integer.parseInt` also accepts the other Unicode decimal digits (`Character.digit`), which the model treats as unparsable.
- Persistencia.Almacen.Insertar: the record has one row per list position (`Persistencia.Registro`). So a header that lists the same line object twice gets a repeated line id, and its insert is rejected. The cascaded persist most likely stores a single row with the id of its last position, and leaves a gap in the line numbering.
- Managed-entity aliasing is left out. After `insertar` the header stays managed, so a later change to it could reach the database at a later commit. The model stores a snapshot of the record at insert time instead.
- Time is a parameter. `new Date()` is the `ahora` argument, and the two `new Date()` calls (creating and saving) are two arguments.
- Floating point is left out. Prices, the tax rate and the totals are exact reals. `double` rounding and the `new BigDecimal(double)` conversion are not modelled.
- Texto.ParseDecimal: only plain decimals (sign, digits, at most one point) are read. Exponents, hexadecimal floats, `NaN`, `Infinity` and type suffixes, which `Double.parseDouble` also accepts, are treated as unparsable.
- Exceptions from the customer and product lookups themselves are left out: a database error or a null id. Only their null result (no such row) is modelled. The null id cannot reach the workflow, because both callers check the id first.
- The text of the JSF messages is left out, as user-interface wording; each message is identified by the `Error` or warning it reports.
- `ManagerFacturacion` and `BeanFactura` build their own collaborators in their constructors (`new ManagerDAO()`, `new ManagerFacturacion()`). Here those collaborators are constructor arguments, so that a session can run over a given store.
- Catalogue listings are left out because they only read data for display. These are the `findAll…` finders, `findClienteById`/`findProductoById` other than as lookups in the workflow, and the `SelectItem` lists of the controller.
- The getters are left out: Dafny reads the fields directly.
- Concurrency between sessions that share the counters is left out. Every run is sequential.
- `FacturaDet.java` is not part of this model. The line entity is modelled from its uses: a line id, a quantity, a sale price, a product and a back-reference. Its quantity, price and product are set once, right after construction, as the manager does. `List.remove` is taken to compare lines by identity.
- Entidades.FacturaCab.AddFacturaDet: requires a non-null line list, where Java raises a `NullPointerException`.
- Entidades.FacturaCab.AddFacturaDet: the line list is a value (`seq`) that the header's methods reassign. So a line appended through an alias of the list that `getFacturaDets()` returns is not captured. The one place the core does so (ManagerFacturacion.java:317) is modelled as a reassignment of the header's list. The method also takes a non-null line. Java's `add(null)` appends the null and then raises a `NullPointerException` at `setFacturaCab`. No caller passes null.
- Entidades.Producto and Entidades.FacturaDet: prices are non-null reals, so one state of the code is out of the model's reach. The `precio_unitario` column is a nullable `BigDecimal` (Producto.java:28-29), and the product form can store a product without a price (BeanProductos.java:35, :44). Adding such a product to an invoice appends its line (ManagerFacturacion.java:315-317). The recalculation then raises a `NullPointerException` (:279). From then on every add and every save of that invoice raises as well (:346), until a new invoice is started.
- Entidades.FacturaCab.RemoveFacturaDet: requires a non-null line list, for the same reason as `AddFacturaDet`.
- Facturacion.ManagerFacturacion.CalcularFacturaTmp: requires a non-null line list. Its only callers guarantee it, and the method is private in the code.
- Facturacion.ManagerFacturacion.GuardarFacturaTemporal: its postcondition does not restate store coherence. That property is the separate lemma `GuardarPreservaCoherencia`, stated about `Confirmacion`, which decides the method's outcome and new state.
- Facturacion.ManagerFacturacion.Confirmar, Facturacion.ManagerFacturacion.ConfirmarNumerada, Facturacion.ManagerFacturacion.ConfirmarCalculada, Facturacion.ManagerFacturacion.Persistir and Facturacion.ManagerFacturacion.InsertarYContar exist only to split up the proof. They are consecutive stretches of `guardarFacturaTemporal`'s body, not methods of the code.
- Counter overflow is handled this way: `++` wraps as Java's `int` does (`Inc32`). The coherence lemmas assume no overflow (`SinDesborde`), because a wrapped counter re-issues numbers.

## Findings

| source | as written | input that shows it | evidently intended | confidence | as-written member | corrected member |
|---|---|---|---|---|---|---|
| facturacion/src/facturacion/controller/BeanFactura.java:52-61 | `asignarCliente` warns that the invoice is already saved but does not return, so the assignment still runs | save invoice "101" for customer 0102030405, then set the customer id to 1712345678 and call `asignarCliente`; the header now names 1712345678, while the model's stored record, a snapshot taken at the insert, names 0102030405. In the code the header stays managed, so the new customer most likely reaches the stored row at the next commit, which makes the bug worse: the saved invoice changes customer | return right after the warning, as `insertarDetalle` and `guardarFactura` do | medium, not executed | Escenarios.ClienteTrasGuardar | Escenarios.ClienteTrasGuardarCorregido |
