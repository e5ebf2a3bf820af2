/**
 * The exception classes of the pipeline (src/betel_errors.py) as one datatype,
 * and the text with which a caught exception is logged.
 */
module BetelErrors {

  datatype BetelError =
    | Base(message: string)                    // BetelError(message)
    | PlayScrapingError(message: string)       // an expected HTML element is missing
    | AccessError(context: string, cause: string)  // a URL or HTTP failure, wrapping the library's exception text

  function ClassName(e: BetelError): string
  {
    match e
    case Base(_) => "BetelError"
    case PlayScrapingError(_) => "PlayScrapingError"
    case AccessError(_, _) => "AccessError"
  }

  /** The exception's single argument; AccessError joins its context and the wrapped exception's text. */
  function Message(e: BetelError): string
  {
    match e
    case Base(m) => m
    case PlayScrapingError(m) => m
    case AccessError(c, x) => c + ": " + x
  }

  /**
   * `getattr(exception, 'message', repr(exception))`: these classes have no `message`
   * attribute, so the text logged is the `repr`, `ClassName('message')`.
   */
  function Describe(e: BetelError): string
  {
    ClassName(e) + "('" + Message(e) + "')"
  }
}
