/** What a geocoding provider answers, and the exceptions the pipeline can raise. */
module LocationProviders {
  import opened Wrappers
  import opened GeocodedLocations

  /** A Java `int`. */
  type int32 = x: int | -0x8000_0000 <= x < 0x8000_0000

  /** Why the JSON library refused a payload. */
  datatype JsonFault =
    | NotAnArray         // the body is not a JSON array
    | NotAnObject        // an array element is not a JSON object
    | BadKey(key: string) // a key is missing, or its value is not of the requested kind

  /** The exceptions of the pipeline. `GeocodingException` wraps its cause. */
  datatype Exception =
    | JsonException(fault: JsonFault)
    | NumberFormatException(text: string)
    | NullPointerException
    | IOException
    | IllegalArgumentException
    | GeocodingException(cause: Exception)

  /** The one exception kind a provider lets escape. */
  type GeocodingError = e: Exception | e.GeocodingException? witness GeocodingException(IOException)

  /** `LocationProvider.geocode`: a query (possibly null) to results or a geocoding error. */
  type Provider = JavaString -> Result<seq<Location>, GeocodingError>
}
