/**
 * The scraper's two exception classes (public_house/exceptions.py).  Every
 * failure the pipeline reports is one of these two kinds.
 */
module Exceptions {

  /** Why a DataParseError was raised. */
  datatype ParseCause =
    | PatternNotFound     // the ALLOCATION_STATUS assignment is not in the text
    | InvalidJson         // the captured literal does not decode
    | MalformedStructure  // reshaping the decoded value raised (a `.get` on a non-object)

  datatype ScrapeError =
    | DataFetchError(reason: string)    // transport-level failure, with its description
    | DataParseError(parseCause: ParseCause)
}
