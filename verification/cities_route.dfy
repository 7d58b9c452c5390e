/** `POST /api/fetchCitiesInRadius`: the populated places within a radius of a
    point. */
module CitiesRoute {
  import opened JsValues
  import opened Geo
  import opened Http

  /** The fields of the decoded JSON body. */
  datatype CitiesBody = CitiesBody(lat: JsValue, lng: JsValue, radius: JsValue)

  /** The provider parameters. The circle filter is `circle:<lng>,<lat>,<m>`
      with `m` the radius in metres; the model records the coerced radius in
      kilometres it is computed from. */
  datatype PlacesRequest = PlacesRequest(
    categories: string,
    lng: JsValue,
    lat: JsValue,
    radiusKm: Number,
    limit: nat,
    apiKey: string)

  /** The `categories` parameter: the populated-place categories, comma-separated. */
  const CategoriesParam := "populated_place.city,populated_place.town,populated_place.village"
  /** The `limit` parameter. */
  const ResultLimit := 100

  const InvalidRadiusStatus := 400
  const InvalidRadiusMessage := "Missing or invalid 'radius' parameter."
  const LookupFailedStatus := 500
  const LookupFailedMessage := "Erreur lors de la recherche des villes dans le rayon."

  /** The request sent for a readable body with an accepted radius. */
  function RequestFor(apiKey: string, body: CitiesBody, radiusKm: Number): PlacesRequest {
    PlacesRequest(CategoriesParam, body.lng, body.lat, radiusKm, ResultLimit, apiKey)
  }

  /** The handler. `body` is `None` when the request body cannot be decoded
      into an object. */
  function Post(
    apiKey: Option<string>,
    host: Host,
    body: Option<CitiesBody>,
    provider: PlacesRequest -> ProviderReply
  ): (h: Handled<PlacesRequest>)
    // a missing key is answered with 401 before the body is read and without a lookup
    ensures h.response == Text(Unauthorized, MissingKeyMessage) <==> !Truthy(apiKey)
    ensures !Truthy(apiKey) ==> !h.bodyRead && h.request.None?
    ensures h.response.Unhandled? <==> Truthy(apiKey) && body.None?
    // a radius that coerces to NaN (or is neither a number nor a string) is a 400, without a lookup
    ensures h.response == Text(InvalidRadiusStatus, InvalidRadiusMessage) <==>
              Truthy(apiKey) && body.Some? && CoerceRadius(host, body.value.radius).None?
    // otherwise the provider is asked for populated places within the coerced radius
    ensures h.request.Some? <==>
              Truthy(apiKey) && body.Some? && CoerceRadius(host, body.value.radius).Some?
    ensures h.request.Some? ==>
              && h.request.value.radiusKm == CoerceRadius(host, body.value.radius).value
              && !h.request.value.radiusKm.NaN?
              && h.request.value.lat == body.value.lat
              && h.request.value.lng == body.value.lng
              && h.request.value.categories == CategoriesParam
              && h.request.value.limit == ResultLimit
              && h.request.value.apiKey == apiKey.value
    // success carries the normalised labelled populated places
    ensures h.response.Json? <==>
              h.request.Some? && provider(h.request.value).Features? &&
              KeepCities(provider(h.request.value).features).Some?
    ensures h.response.Json? ==>
              Some(h.response.locations) == CityLocations(host, provider(h.request.value).features)
    // a provider failure, or a feature without categories (a TypeError in the filter), is a 500
    ensures h.response == Text(LookupFailedStatus, LookupFailedMessage) <==>
              h.request.Some? &&
              (provider(h.request.value).ProviderFailure? || KeepCities(provider(h.request.value).features).None?)
  {
    if !Truthy(apiKey) then
      Handled(Text(Unauthorized, MissingKeyMessage), false, None)
    else if body.None? then
      Handled(Unhandled, true, None)
    else
      match CoerceRadius(host, body.value.radius)
      case None => Handled(Text(InvalidRadiusStatus, InvalidRadiusMessage), true, None)
      case Some(radiusKm) =>
        var request := RequestFor(apiKey.value, body.value, radiusKm);
        var failed := Handled(Text(LookupFailedStatus, LookupFailedMessage), true, Some(request));
        match provider(request)
        case ProviderFailure => failed
        case Features(features) =>
          match CityLocations(host, features)
          case None => failed
          case Some(locations) => Handled(Json(locations), true, Some(request))
  }

  /** A successful answer holds, in provider order, exactly the features that
      carry a populated-place category and a label, one location each; it is
      never longer than the provider's answer, and so never longer than the
      requested limit when the provider honours it. */
  lemma PostJsonIsPopulatedPlaceSubsequence(
    apiKey: Option<string>,
    host: Host,
    body: Option<CitiesBody>,
    provider: PlacesRequest -> ProviderReply)
    requires Post(apiKey, host, body, provider).response.Json?
    ensures var h := Post(apiKey, host, body, provider);
            var features := provider(h.request.value).features;
            var idx := Seqs.KeptIndices(IsLabelledCity, features, 0);
            && |h.response.locations| == |idx| <= |features|
            && (|features| <= h.request.value.limit ==> |h.response.locations| <= ResultLimit)
            && Seqs.StrictlyIncreasing(idx)
            && (forall i :: 0 <= i < |features| ==> (IsLabelledCity(features[i]) <==> i in idx))
            && forall k :: 0 <= k < |idx| ==>
                 && idx[k] < |features|
                 && InPopulatedPlaceCategory(features[idx[k]].properties.categories.value)
                 && HasLabel(features[idx[k]])
                 && h.response.locations[k] == ToLocation(host, features[idx[k]])
  {
    var h := Post(apiKey, host, body, provider);
    CityLocationsSpec(host, provider(h.request.value).features);
  }

  /** The lookup fails as a whole, rather than dropping the feature, as soon as
      one provider feature lacks `categories`. */
  lemma UncategorisedFeatureFailsLookup(
    apiKey: Option<string>,
    host: Host,
    body: CitiesBody,
    provider: PlacesRequest -> ProviderReply,
    i: nat)
    requires Truthy(apiKey) && CoerceRadius(host, body.radius).Some?
    requires var request := RequestFor(apiKey.value, body, CoerceRadius(host, body.radius).value);
             provider(request).Features? && i < |provider(request).features| &&
             provider(request).features[i].properties.categories.None?
    ensures Post(apiKey, host, Some(body), provider).response == Text(LookupFailedStatus, LookupFailedMessage)
  {
    var request := RequestFor(apiKey.value, body, CoerceRadius(host, body.radius).value);
    KeepCitiesFailsIffUncategorised(provider(request).features);
  }
}
