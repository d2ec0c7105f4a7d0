/** The records the core reads and writes (`src/types/index.ts` and the
    shapes used by the services). */
module Types {
  import opened Common
  import Dates

  /** Store identifiers are strings. */
  type Id = string

  /** The stored bonus states (`BonusStatus`). */
  const PENDIENTE: string := "pendiente"
  const RECLAMADO: string := "reclamado"
  const VENCIDO: string := "vencido"
  const ALERTA_5_MESES: string := "alerta_5_meses"

  /** A client row. Empty text stands for a missing `email` or `telefono`
      (both are falsy in the source's checks); dates are the parsed form of
      the stored `YYYY-MM-DD` text, `None` when it is missing. The bonus
      state is the stored text and may hold any value. */
  datatype Client = Client(
    id: Id,
    nombre: string,
    email: string,
    telefono: string,
    fechaNacimiento: Option<Dates.CivilDate>,
    bonoEstado: string,
    bonoFechaVencimiento: Option<Dates.CivilDate>)

  /** An appointment row. */
  datatype Appointment = Appointment(
    id: Id,
    clienteId: Id,
    fechaCita: string,
    servicio: string,
    estado: string,
    pagoEstado: string)

  /** An employee row; `comisionPorcentaje` is `None` when the stored value
      is not a number. */
  datatype Empleado = Empleado(
    id: Id,
    nombre: string,
    rol: string,
    comisionPorcentaje: Option<real>,
    activo: bool)

  /** One line of an invoice being built; `empleadoId` is the optional
      employee who performed the service. */
  datatype InvoiceItem = InvoiceItem(
    id: Id,
    description: string,
    quantity: real,
    price: real,
    empleadoId: Option<Id>)
}
