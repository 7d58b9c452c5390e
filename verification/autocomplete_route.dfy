/** `POST /api/autocompleteSearch`: free-text address lookup. */
module AutocompleteRoute {
  import opened JsValues
  import opened Geo
  import opened Http

  /** The provider parameters: the query text and the API key. */
  datatype AutocompleteRequest = AutocompleteRequest(text: JsValue, apiKey: string)

  const LookupFailedStatus := 500
  const LookupFailedMessage := "Erreur lors de la recherche des villes autocomplete."

  /** The handler. `body` is the `query` field of the decoded JSON body, or
      `None` when the body cannot be decoded into an object. */
  function Post(
    apiKey: Option<string>,
    host: Host,
    body: Option<JsValue>,
    provider: AutocompleteRequest -> ProviderReply
  ): (h: Handled<AutocompleteRequest>)
    // a missing key is answered with 401 before the body is read and without a lookup
    ensures h.response == Text(Unauthorized, MissingKeyMessage) <==> !Truthy(apiKey)
    ensures !Truthy(apiKey) ==> !h.bodyRead && h.request.None?
    // the provider is asked exactly when there is a key and a readable body,
    // with the caller's query and that key
    ensures h.request.Some? <==> Truthy(apiKey) && body.Some?
    ensures h.request.Some? ==> h.request.value == AutocompleteRequest(body.value, apiKey.value)
    ensures h.response.Unhandled? <==> Truthy(apiKey) && body.None?
    // success carries the normalised labelled features; a provider failure is a 500
    ensures h.response.Json? <==> h.request.Some? && provider(h.request.value).Features?
    ensures h.response.Json? ==>
              h.response.locations == AutocompleteLocations(host, provider(h.request.value).features)
    ensures h.response == Text(LookupFailedStatus, LookupFailedMessage) <==>
              h.request.Some? && provider(h.request.value).ProviderFailure?
  {
    if !Truthy(apiKey) then
      Handled(Text(Unauthorized, MissingKeyMessage), false, None)
    else if body.None? then
      Handled(Unhandled, true, None)
    else
      var request := AutocompleteRequest(body.value, apiKey.value);
      match provider(request)
      case ProviderFailure => Handled(Text(LookupFailedStatus, LookupFailedMessage), true, Some(request))
      case Features(features) => Handled(Json(AutocompleteLocations(host, features)), true, Some(request))
  }

  /** A successful answer never holds more locations than the provider sent
      features, keeps their order, and every location comes from a labelled
      feature whose coordinates it carries. */
  lemma PostJsonIsLabelledSubsequence(
    apiKey: Option<string>,
    host: Host,
    body: Option<JsValue>,
    provider: AutocompleteRequest -> ProviderReply)
    requires Post(apiKey, host, body, provider).response.Json?
    ensures var h := Post(apiKey, host, body, provider);
            var features := provider(h.request.value).features;
            var idx := Seqs.KeptIndices(HasLabel, features, 0);
            && |h.response.locations| == |idx| <= |features|
            && Seqs.StrictlyIncreasing(idx)
            && forall k :: 0 <= k < |idx| ==>
                 && idx[k] < |features|
                 && HasLabel(features[idx[k]])
                 && h.response.locations[k].uniqueId ==
                      LocationId(host, features[idx[k]].properties.lat, features[idx[k]].properties.lon)
                 && h.response.locations[k].lat == features[idx[k]].properties.lat
                 && h.response.locations[k].lng == features[idx[k]].properties.lon
  {
    var h := Post(apiKey, host, body, provider);
    AutocompleteLocationsSpec(host, provider(h.request.value).features);
  }
}
