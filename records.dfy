/**
 * The store's records: catalog items, sale records, rows as the CSV reader
 * hands them over, and the Python exceptions that decide how a row is treated.
 */
module Records {
  import opened Wrappers
  import opened Text

  /**
   * One field of a row read by csv.DictReader: the column is missing from
   * the header (Absent), the line was too short so the value is None
   * (NoneValue), or the text of the field.
   */
  datatype Cell = Absent | NoneValue | Text(s: string)

  /** A row of the transaction file: date,time,id,quantity,payment. */
  datatype Row = Row(date: Cell, time: Cell, id: Cell, quantity: Cell, payment: Cell)

  /** A grocery item; price in integer cents. */
  datatype Item = Item(name: string, price: int, stock: int)

  /** A sale record as the program builds it; payment in integer cents. */
  datatype Sale = Sale(date: string, time: string, id: string, quantity: int, payment: int)

  /** The exceptions whose handling differs from one report to another. */
  datatype PyError = KeyError | TypeError | ValueError

  /** How a sale attempt ended. */
  datatype SaleOutcome =
    | Recorded(sale: Sale)
    | UnknownGrocery          // "Grocery ID not found."
    | InsufficientStock       // "Insufficient stock."
    | InvalidGroceryOrStock   // "Invalid grocery ID or insufficient stock."
    | InvalidQuantity         // a quantity that int() rejects, caught and reported
    | Raised(error: PyError)  // an exception that escapes to the caller

  /**
   * The row csv.DictWriter writes for a sale and csv.DictReader reads back:
   * every field as text, numbers as Python's str() prints them.
   */
  function SaleRow(s: Sale): Row
  {
    Row(Text(s.date), Text(s.time), Text(s.id), Text(IntToString(s.quantity)), Text(FormatCents(s.payment)))
  }

  /** float(t[key]): a missing key raises KeyError, None raises TypeError, bad text ValueError. */
  function FloatField(c: Cell): Result<int, PyError>
  {
    match c
    case Absent => Err(KeyError)
    case NoneValue => Err(TypeError)
    case Text(s) => if ParseCents(s).Some? then Ok(ParseCents(s).value) else Err(ValueError)
  }

  /** float(t.get(key, 0)): a missing key reads as 0. */
  function FloatFieldOrZero(c: Cell): Result<int, PyError>
  {
    if c.Absent? then Ok(0) else FloatField(c)
  }

  /** int(t[key]). */
  function IntField(c: Cell): Result<int, PyError>
  {
    match c
    case Absent => Err(KeyError)
    case NoneValue => Err(TypeError)
    case Text(s) => if ParseInt(s).Some? then Ok(ParseInt(s).value) else Err(ValueError)
  }

  /** int(t.get(key, 0)): a missing key reads as 0. */
  function IntFieldOrZero(c: Cell): Result<int, PyError>
  {
    if c.Absent? then Ok(0) else IntField(c)
  }
}
