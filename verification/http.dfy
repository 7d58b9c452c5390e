/** What the two geocoding API routes answer, and what the provider answers
    them. The provider call itself is I/O: each handler receives it as a
    function from the request it would send to the reply it would get, and
    reports which request (if any) it sent.
 */
module Http {
  import opened JsValues
  import opened Geo

  /** The provider's reply: a decoded `features` array of well-formed
      features, or a failure. `ProviderFailure` stands for every reply that
      ends in the lookup error: the awaited call throwing, and also a reply
      without a `features` array or with a feature without `properties`,
      which make the filter or the map throw. */
  datatype ProviderReply = Features(features: seq<Feature>) | ProviderFailure

  /** A route's answer: a JSON array of locations (status 200), a plain-text
      error with its status, or an exception the handler does not catch
      (which the framework turns into its own error page). */
  datatype Response =
    | Json(locations: seq<Location>)
    | Text(status: int, message: string)
    | Unhandled

  /** The observable result of one handler run: the response, whether the
      request body was read, and the provider request issued, if any. */
  datatype Handled<Q> = Handled(response: Response, bodyRead: bool, request: Option<Q>)

  /** Status and message when the provider key is missing or empty. */
  const Unauthorized := 401
  const MissingKeyMessage := "Missing GEOAPIFY_API_KEY. Don't forget to add that to your .env file."
}
