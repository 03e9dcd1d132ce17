/** Durable writes. */
module Writes {

  /** A failed write leaves the old or the new content. */
  datatype Write = Written | KeptOld | WroteNew
}
