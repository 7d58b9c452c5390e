/** The server actions `autocompleteSearch` and `fetchCitiesInRadius`: the same
    lookups as the two API routes, reporting failure by throwing instead of
    answering with a status (except for the free-text lookup's missing key,
    which it returns as a 401 response object).
 */
module LookupActions {
  import opened JsValues
  import opened Geo
  import opened Http
  import AutocompleteRoute
  import CitiesRoute

  /** A server action either returns a value or throws an `Error`. */
  datatype ActionOutcome<T> = Returned(value: T) | Thrown(message: string)

  /** What the action ran into, and the provider request it issued, if any. */
  datatype Performed<T, Q> = Performed(outcome: ActionOutcome<T>, request: Option<Q>)

  /** `autocompleteSearch` returns either the locations or, for a missing key,
      a response object carrying status 401. */
  datatype AutocompleteValue = Locations(locations: seq<Location>) | ErrorResponse(status: int, message: string)

  const AutocompleteFailedMessage := "Erreur lors de la recherche des villes autocomplete"

  /** `autocompleteSearch({ query })`; the schema guarantees `query` is a string. */
  function AutocompleteSearch(
    apiKey: Option<string>,
    host: Host,
    query: string,
    provider: AutocompleteRoute.AutocompleteRequest -> ProviderReply
  ): (p: Performed<AutocompleteValue, AutocompleteRoute.AutocompleteRequest>)
    ensures p.outcome == Returned(ErrorResponse(Unauthorized, MissingKeyMessage)) <==> !Truthy(apiKey)
    ensures p.request.Some? <==> Truthy(apiKey)
    ensures p.request.Some? ==> p.request.value == AutocompleteRoute.AutocompleteRequest(Str(query), apiKey.value)
    ensures p.outcome == Thrown(AutocompleteFailedMessage) <==>
              p.request.Some? && provider(p.request.value).ProviderFailure?
    ensures p.outcome.Returned? && p.outcome.value.Locations? ==>
              p.request.Some? && provider(p.request.value).Features? &&
              p.outcome.value.locations == AutocompleteLocations(host, provider(p.request.value).features)
    // received features are always returned, normalised
    ensures p.request.Some? && provider(p.request.value).Features? ==>
              p.outcome == Returned(Locations(AutocompleteLocations(host, provider(p.request.value).features)))
  {
    if !Truthy(apiKey) then
      Performed(Returned(ErrorResponse(Unauthorized, MissingKeyMessage)), None)
    else
      var request := AutocompleteRoute.AutocompleteRequest(Str(query), apiKey.value);
      match provider(request)
      case ProviderFailure => Performed(Thrown(AutocompleteFailedMessage), Some(request))
      case Features(features) => Performed(Returned(Locations(AutocompleteLocations(host, features))), Some(request))
  }

  /** `fetchCitiesInRadius({ lat, lng, radius })`. The three failures throw with
      the texts the route answers with; a feature without `categories` makes
      the filter throw, which the action reports as a lookup failure. */
  function FetchCitiesInRadius(
    apiKey: Option<string>,
    host: Host,
    lat: Number,
    lng: Number,
    radius: JsValue,
    provider: CitiesRoute.PlacesRequest -> ProviderReply
  ): (p: Performed<seq<Location>, CitiesRoute.PlacesRequest>)
    ensures p.outcome == Thrown(MissingKeyMessage) <==> !Truthy(apiKey)
    ensures p.outcome == Thrown(CitiesRoute.InvalidRadiusMessage) <==>
              Truthy(apiKey) && CoerceRadius(host, radius).None?
    ensures p.request.Some? <==> Truthy(apiKey) && CoerceRadius(host, radius).Some?
    ensures p.outcome.Returned? ==>
              p.request.Some? && provider(p.request.value).Features? &&
              Some(p.outcome.value) == CityLocations(host, provider(p.request.value).features)
    // the lookup error is thrown exactly when the lookup fails or the filter throws
    ensures p.outcome == Thrown(CitiesRoute.LookupFailedMessage) <==>
              p.request.Some? &&
              (provider(p.request.value).ProviderFailure? || CityLocations(host, provider(p.request.value).features).None?)
    // received features that the filter accepts are returned
    ensures p.request.Some? && provider(p.request.value).Features? && CityLocations(host, provider(p.request.value).features).Some? ==>
              p.outcome == Returned(CityLocations(host, provider(p.request.value).features).value)
  {
    if !Truthy(apiKey) then
      Performed(Thrown(MissingKeyMessage), None)
    else
      match CoerceRadius(host, radius)
      case None => Performed(Thrown(CitiesRoute.InvalidRadiusMessage), None)
      case Some(radiusKm) =>
        var request := CitiesRoute.RequestFor(apiKey.value, CitiesRoute.CitiesBody(Num(lat), Num(lng), radius), radiusKm);
        var failed := Performed(Thrown(CitiesRoute.LookupFailedMessage), Some(request));
        match provider(request)
        case ProviderFailure => failed
        case Features(features) =>
          match CityLocations(host, features)
          case None => failed
          case Some(locations) => Performed(Returned(locations), Some(request))
  }

  /** With a key present, the free-text action and the route send the same
      request and agree: the action returns the locations the route answers
      with, and throws exactly when the route answers 500. */
  lemma AutocompleteActionAgreesWithRoute(
    apiKey: Option<string>,
    host: Host,
    query: string,
    provider: AutocompleteRoute.AutocompleteRequest -> ProviderReply)
    requires Truthy(apiKey)
    ensures var p := AutocompleteSearch(apiKey, host, query, provider);
            var h := AutocompleteRoute.Post(apiKey, host, Some(Str(query)), provider);
            && p.request == h.request
            && (p.outcome.Returned? <==> h.response.Json?)
            && (h.response.Json? ==> p.outcome.value == Locations(h.response.locations))
            && (p.outcome.Thrown? <==> h.response == Text(500, AutocompleteRoute.LookupFailedMessage))
  {
  }

  /** On the same inputs, the radius action and the route send the same
      request; the action returns exactly what the route answers with on
      success, and throws, with the route's message, exactly when the route
      answers with an error status. */
  lemma CitiesActionAgreesWithRoute(
    apiKey: Option<string>,
    host: Host,
    lat: Number,
    lng: Number,
    radius: JsValue,
    provider: CitiesRoute.PlacesRequest -> ProviderReply)
    ensures var p := FetchCitiesInRadius(apiKey, host, lat, lng, radius, provider);
            var h := CitiesRoute.Post(apiKey, host, Some(CitiesRoute.CitiesBody(Num(lat), Num(lng), radius)), provider);
            && p.request == h.request
            && (p.outcome.Returned? <==> h.response.Json?)
            && (h.response.Json? ==> p.outcome.value == h.response.locations)
            && (p.outcome.Thrown? <==> h.response.Text?)
            && (h.response.Text? ==> p.outcome.message == h.response.message)
  {
  }
}
