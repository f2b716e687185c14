/** Platform values the app passes around without looking inside. */
module Platform {
  import opened Wrappers

  /** A content reference to a picked or captured image. */
  datatype Uri = Uri(text: string)

  /**
   * How a suspended database call ended, seen from the caller: normally,
   * or by throwing an exception whose message may be null.
   */
  datatype Fault = NoFault | Threw(message: Option<string>)
}
