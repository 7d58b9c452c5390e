/** Geocoding results and their normalisation into `Location` records, shared
    by the two API routes and the two server actions that query the
    geocoding provider, plus the radius coercion both radius lookups perform.
 */
module Geo {
  import opened JsValues
  import opened Seqs

  /** The `properties` of one provider feature that the code reads. */
  datatype Properties = Properties(
    formatted: Option<string>,
    name: Option<string>,
    lat: Number,
    lon: Number,
    categories: Option<seq<string>>)

  /** One feature of the provider's `features` array. Fields the code only
      hands to the address formatter are not spelled out. */
  datatype Feature = Feature(properties: Properties)

  /** The canonical location record of the front end. */
  datatype Location = Location(uniqueId: string, name: string, lat: Number, lng: Number)

  /** Host functions the model leaves uninterpreted: the JavaScript
      number-to-string conversion used in template strings, the address
      formatter `formatLocationAddress`, and `parseFloat`. */
  datatype Host = Host(
    showNumber: Number -> string,
    formatAddress: Feature -> string,
    parseFloat: string -> Number)

  /** The "nothing selected" location a single-location field is reset to. */
  const EmptyLocation := Location("", "", Finite(0.0), Finite(0.0))

  /** The categories a radius lookup keeps. */
  const PopulatedPlaceCategories := ["populated_place.city", "populated_place.town", "populated_place.village"]

  /** The `uniqueId` of the location at a coordinate pair: `${lat}-${lon}`. */
  function LocationId(host: Host, lat: Number, lon: Number): string {
    host.showNumber(lat) + "-" + host.showNumber(lon)
  }

  /** `loc` carries the id of its own coordinates, as every location built
      from a feature does. */
  predicate IdOfCoordinates(host: Host, loc: Location) {
    loc.uniqueId == LocationId(host, loc.lat, loc.lng)
  }

  /** `e.properties.formatted || e.properties.name` is truthy. */
  predicate HasLabel(f: Feature) {
    Truthy(f.properties.formatted) || Truthy(f.properties.name)
  }

  /** Some populated-place category occurs in `categories`. */
  predicate InPopulatedPlaceCategory(categories: seq<string>) {
    exists i :: 0 <= i < |PopulatedPlaceCategories| && PopulatedPlaceCategories[i] in categories
  }

  /** The radius lookup's filter condition for a feature that has categories. */
  predicate IsLabelledCity(f: Feature) {
    && f.properties.categories.Some?
    && InPopulatedPlaceCategory(f.properties.categories.value)
    && HasLabel(f)
  }

  /** The mapping step applied to one kept feature. */
  function ToLocation(host: Host, f: Feature): Location {
    Location(
      LocationId(host, f.properties.lat, f.properties.lon),
      host.formatAddress(f),
      f.properties.lat,
      f.properties.lon)
  }

  /** `features.map(city => ({ uniqueId, name, lat, lng }))`. */
  function Normalise(host: Host, kept: seq<Feature>): seq<Location> {
    Map((f: Feature) => ToLocation(host, f), kept)
  }

  /** The free-text lookup's `filter(...).map(...)` over the provider features. */
  function AutocompleteLocations(host: Host, features: seq<Feature>): seq<Location> {
    Normalise(host, Filter(HasLabel, features))
  }

  /** The radius lookup's filter. Reading `categories.includes` of a feature
      that has no `categories` raises a TypeError, which aborts the whole
      filter: that outcome is `None`. */
  function KeepCities(features: seq<Feature>): Option<seq<Feature>> {
    if features == [] then Some([])
    else if features[0].properties.categories.None? then None
    else
      match KeepCities(features[1..])
      case None => None
      case Some(rest) =>
        Some(if IsLabelledCity(features[0]) then [features[0]] + rest else rest)
  }

  /** The radius lookup's `filter(...).map(...)`; `None` when the filter raised. */
  function CityLocations(host: Host, features: seq<Feature>): Option<seq<Location>> {
    match KeepCities(features)
    case None => None
    case Some(kept) => Some(Normalise(host, kept))
  }

  /** `typeof radius === "string" ? parseFloat(radius) : radius`, accepted
      when the outcome is a number other than NaN. Infinities pass. */
  function CoerceRadius(host: Host, radius: JsValue): (r: Option<Number>)
    ensures r.Some? ==> !r.value.NaN?
    ensures radius.Num? ==> r == (if radius.n.NaN? then None else Some(radius.n))
    ensures radius.Str? ==>
              r == (if host.parseFloat(radius.s).NaN? then None else Some(host.parseFloat(radius.s)))
    ensures !radius.Num? && !radius.Str? ==> r.None?
  {
    var coerced := if radius.Str? then Num(host.parseFloat(radius.s)) else radius;
    if coerced.Num? && !coerced.n.NaN? then Some(coerced.n) else None
  }

  /** A radius of `Infinity` (a number, or the string `"Infinity"` when
      `parseFloat` reads it so) is accepted: only NaN is rejected. */
  lemma InfiniteRadiusAccepted(host: Host, radius: JsValue)
    requires radius == Num(Infinity(false)) || (radius.Str? && host.parseFloat(radius.s) == Infinity(false))
    ensures CoerceRadius(host, radius) == Some(Infinity(false))
  {
  }

  /** Every location built from a feature carries that feature's coordinates
      and the id of those coordinates. */
  lemma NormaliseKeepsCoordinates(host: Host, kept: seq<Feature>)
    ensures |Normalise(host, kept)| == |kept|
    ensures forall k :: 0 <= k < |kept| ==>
              var loc := Normalise(host, kept)[k];
              var p := kept[k].properties;
              && loc.uniqueId == LocationId(host, p.lat, p.lon)
              && loc.name == host.formatAddress(kept[k])
              && loc.lat == p.lat
              && loc.lng == p.lon
  {
  }

  /** Every location built from a feature carries the id of its own
      coordinates. */
  lemma ToLocationIdOfCoordinates(host: Host, f: Feature)
    ensures IdOfCoordinates(host, ToLocation(host, f))
  {
  }

  /** The free-text lookup output is an order-preserving, one-to-one image of
      exactly the labelled features: the positions `idx` of the kept features
      strictly increase, a position is kept iff its feature has a label, and
      the k-th location is built from the feature at `idx[k]`. */
  lemma AutocompleteLocationsSpec(host: Host, features: seq<Feature>)
    ensures var r := AutocompleteLocations(host, features);
            var idx := KeptIndices(HasLabel, features, 0);
            && |r| == |idx| <= |features|
            && StrictlyIncreasing(idx)
            && (forall k :: 0 <= k < |idx| ==> idx[k] < |features| && HasLabel(features[idx[k]]))
            && (forall i :: 0 <= i < |features| ==> (HasLabel(features[i]) <==> i in idx))
            && (forall k :: 0 <= k < |idx| ==> r[k] == ToLocation(host, features[idx[k]]))
  {
    FilterIsSubsequence(HasLabel, features);
  }

  /** The radius filter raises exactly when some feature has no categories. */
  lemma {:induction false} KeepCitiesFailsIffUncategorised(features: seq<Feature>)
    ensures KeepCities(features).None? <==>
              exists i :: 0 <= i < |features| && features[i].properties.categories.None?
  {
    if features != [] {
      KeepCitiesFailsIffUncategorised(features[1..]);
      if features[0].properties.categories.Some? {
        forall i | 1 <= i < |features|
          ensures features[i] == features[1..][i - 1]
        {
        }
      }
    }
  }

  /** When the radius filter does not raise, it keeps exactly the labelled
      populated places, in order. */
  lemma {:induction false} KeepCitiesIsFilter(features: seq<Feature>)
    requires KeepCities(features).Some?
    ensures KeepCities(features).value == Filter(IsLabelledCity, features)
  {
    if features != [] {
      KeepCitiesIsFilter(features[1..]);
    }
  }

  /** The radius lookup output, when the filter does not raise, is an
      order-preserving one-to-one image of exactly the features that carry a
      populated-place category and a label. */
  lemma CityLocationsSpec(host: Host, features: seq<Feature>)
    requires CityLocations(host, features).Some?
    ensures var r := CityLocations(host, features).value;
            var idx := KeptIndices(IsLabelledCity, features, 0);
            && |r| == |idx| <= |features|
            && StrictlyIncreasing(idx)
            && (forall k :: 0 <= k < |idx| ==> idx[k] < |features| && IsLabelledCity(features[idx[k]]))
            && (forall i :: 0 <= i < |features| ==> (IsLabelledCity(features[i]) <==> i in idx))
            && (forall k :: 0 <= k < |idx| ==> r[k] == ToLocation(host, features[idx[k]]))
  {
    KeepCitiesIsFilter(features);
    FilterIsSubsequence(IsLabelledCity, features);
  }
}
