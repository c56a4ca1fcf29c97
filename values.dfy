/**
 * Metadata values. A document element's metadata maps names to scalars or
 * lists of scalars; what the vector store keeps maps names to scalars only.
 */
module Values {
  import opened Text

  /** A scalar metadata value. */
  datatype Atom = Str(s: string) | Int(i: int)

  /** An element's metadata value: a scalar or a list of scalars. */
  datatype Value = Scalar(atom: Atom) | List(items: seq<Atom>)

  /** An element's (and a chunk's) metadata mapping. */
  type Metadata = map<string, Value>

  /** A metadata mapping as the vector store holds it: scalars only. */
  type StoredMetadata = map<string, Atom>

  const SourceKey := "source"
  const PageNumberKey := "page_number"
  const CoordinatesKey := "coordinates"
  const NotAvailable := "N/A"

  /** Python's `str(v)` of a scalar. */
  function Show(a: Atom): string {
    match a
    case Str(s) => s
    case Int(i) => IntToString(i)
  }
}
