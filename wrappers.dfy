/** Option and Result values and the error taxonomy shared by every module of the model.
    Go returns `(value, error)` pairs; the model returns a Result instead. */
module Wrappers {

  datatype Option<+T> = None | Some(value: T)

  /** The errors the system reports. Messages are kept where the source builds them from a
      literal, so that two different failures are never confused in a contract. */
  datatype Error =
    | NotFound(msg: string)              // tea.ErrNotFound / a store lookup with no match
    | NoContent(msg: string)             // tea.NewNoContent / errors.NewNoContent
    | BadId                              // "bad id": the id satisfies no kind predicate
    | BadLocation(text: string)          // ParseId / ParseLocation refused the text
    | InvalidIp                          // net.ParseIP failed
    | UnexpectedFileCount(found: nat)    // the zip archive does not hold exactly one member
    | UnexpectedColumnCount(found: nat)  // a row is not 12 columns wide
    | BadFloat(text: string)             // strconv.ParseFloat refused a latitude or longitude
    | ReadFailed                         // the CSV reader stopped with an error other than EOF
    | MemberMissing                      // the tar stream ended before a usable member
    | ReaderClosed                       // a lookup on a geoip2 reader that was closed
    | MissingPrimaryIndex                // go-memdb Insert: the object gives the "id" index no value
    | Upstream(msg: string)              // an error raised by a collaborator (fetch, gzip, reader)

  datatype Result<+T> = Ok(value: T) | Err(error: Error)
}
