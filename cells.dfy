/** The coercions a decoder applies to one cell of a result-set element: `Guid.Parse`,
    `Convert.ToInt32(..) == 1` and `DateTime.Parse` of the cell's text. */
module Cells {
  import opened Common
  import opened Clr
  import ClrGuid
  import opened ClrText
  import opened Json

  /** `Guid.Parse(column[k].ToString())` */
  function GuidCell(lib: Library, column: Json, k: nat): (r: Result<ClrGuid.Guid, Exn>)
    ensures r.Success? <==> column.JArray? && k < |column.items| && lib.parseGuid(Text(lib, column.items[k])).Success?
    ensures r.Success? ==> r.value == lib.parseGuid(Text(lib, column.items[k])).value
  {
    var text :- Column(lib, column, k);
    match lib.parseGuid(text)
    case Failure(m) => Failure(FormatError(m))
    case Success(g) => Success(g)
  }

  /** `Convert.ToInt32(column[k].ToString()) == 1`: an enabled flag. */
  function FlagCell(lib: Library, column: Json, k: nat): (r: Result<bool, Exn>)
    ensures r.Success? <==> column.JArray? && k < |column.items| && ToInt32(Text(lib, column.items[k])).Success?
    ensures r.Success? ==> (r.value <==> ToInt32(Text(lib, column.items[k])) == Success(1))
  {
    var text :- Column(lib, column, k);
    var n :- ToInt32(text);
    Success(n == 1)
  }

  /** `DateTime.Parse(column[k].ToString())` */
  function DateCell(lib: Library, column: Json, k: nat): (r: Result<DateTime, Exn>)
    ensures r.Success? <==> column.JArray? && k < |column.items| && lib.parseDateTime(Text(lib, column.items[k])).Success?
    ensures r.Success? ==> r.value == lib.parseDateTime(Text(lib, column.items[k])).value
  {
    var text :- Column(lib, column, k);
    match lib.parseDateTime(text)
    case Failure(m) => Failure(FormatError(m))
    case Success(d) => Success(d)
  }

  /** A flag cell holding the decimal text of an Int32 is enabled exactly when that integer is
      1; a cell that is not an Int32 at all fails with the conversion's own exception. */
  lemma FlagCellOfInteger(lib: Library, items: seq<Json>, k: nat, n: int)
    requires k < |items| && Int32Min <= n <= Int32Max && Text(lib, items[k]) == IntText(n)
    ensures FlagCell(lib, JArray(items), k) == Success(n == 1)
  {
    ToInt32OfIntText(n);
  }

  lemma FlagCellNotInteger(lib: Library, items: seq<Json>, k: nat)
    requires k < |items| && ToInt32(Text(lib, items[k])).Failure?
    ensures FlagCell(lib, JArray(items), k) == Failure(ToInt32(Text(lib, items[k])).error)
    ensures FlagCell(lib, JArray(items), k).error in {FormatError(Int32FormatMessage), Overflow}
  {
  }
}
