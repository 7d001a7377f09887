/** The downloaded GeoNames export as the loaders see it, once the HTTP fetch, the zip archive
    and the tab-separated reader have done their work: a list of archive members, each the
    rows its reader produced. */
module Dataset {
  import opened Wrappers

  /** Every GeoNames row has this many columns. */
  const NumColumns: nat := 12

  /** One archive member read by encoding/csv: the rows read before the reader stopped, and
      whether it stopped on a failure rather than at the end of the input. A member that
      cannot be opened at all is a Table with no rows that failed. */
  datatype Table = Table(rows: seq<seq<string>>, failed: bool)

  /** The archive: its members, or the error of the fetch or of zip decoding. */
  type Archive = Result<seq<Table>>

  /** strconv.ParseFloat: a partial function from text to a number. */
  type ParseFloat = string -> Option<real>

  /** The loaders accept only an archive with exactly one member. */
  function SingleMember(archive: Archive): (r: Result<Table>)
    ensures r.Ok? <==> archive.Ok? && |archive.value| == 1
    ensures r.Ok? ==> r.value == archive.value[0]
    ensures archive.Ok? && |archive.value| != 1 ==> r == Err(UnexpectedFileCount(|archive.value|))
    ensures archive.Err? ==> r == Err(archive.error)
  {
    match archive
    case Err(e) => Err(e)
    case Ok(members) =>
      if |members| != 1 then Err(UnexpectedFileCount(|members|)) else Ok(members[0])
  }

  /** Latitude from column 9 and longitude from column 10, the latitude parsed first. */
  function Coordinates(row: seq<string>, parseFloat: ParseFloat): (r: Result<(real, real)>)
    requires |row| == NumColumns
    ensures r.Ok? <==> parseFloat(row[9]).Some? && parseFloat(row[10]).Some?
    ensures r.Ok? ==> r.value == (parseFloat(row[9]).value, parseFloat(row[10]).value)
    ensures r.Err? ==> r.error == BadFloat(if parseFloat(row[9]).None? then row[9] else row[10])
  {
    match parseFloat(row[9])
    case None => Err(BadFloat(row[9]))
    case Some(latitude) =>
      match parseFloat(row[10])
      case None => Err(BadFloat(row[10]))
      case Some(longitude) => Ok((latitude, longitude))
  }

  /** Why a row stops a load: the column count is checked first, then the coordinates. */
  function RowError(row: seq<string>, parseFloat: ParseFloat): (r: Option<Error>)
    ensures |row| != NumColumns ==> r == Some(UnexpectedColumnCount(|row|))
    ensures r.None? <==> |row| == NumColumns && Coordinates(row, parseFloat).Ok?
  {
    if |row| != NumColumns then Some(UnexpectedColumnCount(|row|))
    else match Coordinates(row, parseFloat)
      case Err(e) => Some(e)
      case Ok(_) => None
  }

  /** The checks the loaders make of each row, in order: the column count, then latitude and
      longitude. */
  method CheckRow(row: seq<string>, parseFloat: ParseFloat) returns (e: Option<Error>)
    ensures e == RowError(row, parseFloat)
  {
    if |row| != NumColumns {
      return Some(UnexpectedColumnCount(|row|));
    }
    var latitude := parseFloat(row[9]);
    if latitude.None? {
      return Some(BadFloat(row[9]));
    }
    var longitude := parseFloat(row[10]);
    if longitude.None? {
      return Some(BadFloat(row[10]));
    }
    return None;
  }
}
