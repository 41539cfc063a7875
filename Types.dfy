/** The record shapes exchanged with the REST API (`lib/types.ts`).
    Prices and totals are integer cents; instants are integer milliseconds. */
module Types {
  import opened Wrappers
  import opened Constants

  /** A user as cached by the session store; `rol` is whatever string the server
      sent ('CLIENTE' or 'ADMINISTRADOR' by the declared type). */
  datatype Usuario = Usuario(
    idUsuario: Option<string>,
    nombre: string,
    apellido: Option<string>,
    gmail: string,
    contrasena: string,
    direccion: string,
    rol: Option<string>)

  /** A menu item; `precio` in cents. */
  datatype Item = Item(
    idItem: Option<string>,
    nombre: string,
    categoria: Categoria,
    descripcion: string,
    precio: int,
    disponibilidad: bool)

  /** One order line: an item snapshot, its quantity, unit price and subtotal. */
  datatype DetallePedido = DetallePedido(
    idDetalle: Option<int>,
    codigoPedido: Option<int>,
    item: Item,
    cantidad: int,
    precioUnitario: int,
    subtotal: int,
    observaciones: string)

  datatype Pedido = Pedido(
    codigoPedido: Option<int>,
    usuario: Usuario,
    fecha: int,
    estado: Estado,
    detalles: seq<DetallePedido>,
    total: Option<int>)

  datatype Factura = Factura(
    codigoFactura: int,
    fechaEmision: int,
    montoTotal: int,
    metodoPago: string)

  /** `usuario?.idUsuario` is truthy: present and not the empty string. */
  predicate HasId(u: Usuario)
  {
    u.idUsuario.Some? && u.idUsuario.value != ""
  }

  /** The fixed delivery fee, 5.00, in cents. */
  const DELIVERY_FEE: int := 500
}
