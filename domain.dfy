/** The records the views pass around: products, cart lines, sales and their
    lines, users, and the outcome of a call to the back-end API.  Money is in
    integer cents; a calendar day is an abstract (year, month, day) value. */
module Domain {
  import opened Seqs

  /** A calendar day as the browser's local clock reports it: `getFullYear()`,
      `getMonth() + 1` and `getDate()`. */
  datatype Day = Day(year: int, month: int, day: int)

  predicate ValidDay(d: Day) {
    1 <= d.month <= 12 && 1 <= d.day <= 31
  }

  datatype Product = Product(
    id: int,
    nombre: string,
    codigo: string,
    precio: int,
    stock: int,
    stockMinimo: int,
    categoriaId: int,
    proveedorId: int)

  /** A cart line is the product as it was when it was added (`{ ...producto,
      cantidad }`) together with the chosen quantity. */
  datatype CartLine = CartLine(producto: Product, cantidad: int) {
    function Id(): int { producto.id }
  }

  /** A line of a sale as it is sent to and kept by the sales API. */
  datatype SaleLine = SaleLine(productoId: int, cantidad: int, precio: int)

  /** The `estado` string of a sale; anything but the two known values is kept
      as it came. */
  datatype Estado = Completada | Cancelada | OtroEstado(nombre: string)

  /** A sale as the sales API returns it.  `productos` may be missing and
      `total` may not be a number (None), which the views count as 0. */
  datatype Sale = Sale(
    id: int,
    fecha: Day,
    vendedor: string,
    estado: Estado,
    productos: Option<seq<SaleLine>>,
    total: Option<int>)

  datatype User = User(id: int, nombre: string, email: string, rol: string)

  /** The outcome of one awaited API call: it answered with `success` and the
      saved record, it answered without `success`, or it threw. */
  datatype ApiResponse<T> = Saved(item: T) | NotSaved | Threw

  /** `parseFloat(v.total) || 0` */
  function TotalOrZero(v: Sale): int {
    if v.total.Some? then v.total.value else 0
  }

  function LineUnits(l: SaleLine): int { l.cantidad }

  /** `v.productos?.reduce((s, p) => s + (p.cantidad || 0), 0) || 0`: the units
      of one sale, 0 when it carries no line list. */
  function SaleUnits(v: Sale): int {
    if v.productos.Some? then Sum(v.productos.value, LineUnits) else 0
  }

  function IsCompletada(v: Sale): bool { v.estado == Completada }

  function IsCancelada(v: Sale): bool { v.estado == Cancelada }

  function ProductId(p: Product): int { p.id }

  function LineId(l: CartLine): int { l.Id() }

  function UserId(u: User): int { u.id }
}
