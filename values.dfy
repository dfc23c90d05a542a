/**
  The scalar values held in map-form rows (Go's `interface{}` cells) and the text a
  `sql.NullString` scan turns them into.
*/
module Values {

  /**
    A cell value: nil, a string, or any other scalar (number, boolean, time) carried
    with the text the scan renders it as, which this model does not compute.
  */
  datatype Value = Nil | Str(s: string) | Other(shown: string)

  /** Nil renders as the empty string and a string as itself. */
  function Render(v: Value): (r: string)
    ensures v.Nil? ==> r == ""
    ensures v.Str? ==> r == v.s
  {
    match v
    case Nil => ""
    case Str(s) => s
    case Other(shown) => shown
  }
}
