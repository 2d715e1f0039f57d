/** The .NET runtime pieces the controllers lean on: the exceptions that can reach their
    `catch` blocks, and `DateTime` as an opaque instant. */
module Clr {

  /** The exceptions that can arise inside the controllers' `try` blocks (and the one that
      `ComputationInfoJobController` throws outside of it). Exceptions raised by code outside
      this model (ADAL, HttpClient, the JSON reader, Guid and DateTime parsing) carry the
      message that code supplies. */
  datatype Exn =
    | AdalServiceError(message: string)      // AcquireTokenAsync failed
    | HttpRequestError(message: string)      // HttpClient.SendAsync failed
    | JsonReaderError(message: string)       // JObject.Parse rejected the body
    | NullReference                          // member access on a null reference
    | InvalidChildAccess                     // JToken indexer on a token without children by index
    | ArgumentOutOfRange                     // JArray index past its end
    | FormatError(message: string)           // Guid.Parse, DateTime.Parse, Convert.ToInt32
    | Overflow                               // Convert.ToInt32 outside the Int32 range
    | ArgumentNull(paramName: string)        // `throw new ArgumentNullException(paramName)`

  const Int32FormatMessage := "Input string was not in a correct format."

  /** `ex.Message` */
  function Message(e: Exn): string {
    match e
    case AdalServiceError(m) => m
    case HttpRequestError(m) => m
    case JsonReaderError(m) => m
    case NullReference => "Object reference not set to an instance of an object."
    case InvalidChildAccess => "Cannot access child value on this token."
    case ArgumentOutOfRange => "Index was out of range."
    case FormatError(m) => m
    case Overflow => "Value was either too large or too small for an Int32."
    case ArgumentNull(p) => "Value cannot be null. Parameter name: " + p
  }

  /** A `DateTime`, as a count of ticks; its calendar arithmetic is not part of this model. */
  datatype DateTime = DateTime(ticks: int)

  /** `default(DateTime)`, i.e. `DateTime.MinValue`. */
  const MinDateTime := DateTime(0)
}
