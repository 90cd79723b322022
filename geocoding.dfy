/**
 * The address lookup inside updateBin: build the full address, ask the
 * geocoder, and when it finds nothing ask once more without the landmark.
 * The geocoder (an HTTP GET to the Nominatim search endpoint) is a parameter.
 */
module Geocoding {
  import opened Models

  /** One search result: `lat`, `lon` and `display_name`. */
  datatype Place = Place(lat: Coord, lon: Coord, displayName: string)

  /** The geocoder's answer: a transport failure, or the list of results. */
  datatype GeoReply = TransportError | Places(results: seq<Place>)

  /** `${locality}, ${landmark || ''}, ${city}` */
  function Address(locality: string, landmark: string, city: string): string {
    locality + ", " + landmark + ", " + city
  }

  /** `${locality}, ${city}` */
  function FallbackAddress(locality: string, city: string): string {
    locality + ", " + city
  }

  /** The reduced address is a different query from the full one, whatever
      the landmark (an empty landmark still leaves ", , " in the full one). */
  lemma FallbackDiffers(locality: string, landmark: string, city: string)
    ensures Address(locality, landmark, city) != FallbackAddress(locality, city)
    ensures |Address(locality, landmark, city)| == |FallbackAddress(locality, city)| + |landmark| + 2
  {
  }

  datatype Lookup = Located(place: Place, fallback: bool) | NotLocated | LookupFailed

  /** The queries issued, in order, and what came of them. */
  datatype Pipeline = Pipeline(queries: seq<string>, outcome: Lookup)

  /** The two-step lookup: the first result of the full address; otherwise,
      only when that reply listed nothing, the first result of the reduced
      address; otherwise no location. A transport failure ends the lookup. */
  function Locate(locality: string, landmark: string, city: string, geocode: string -> GeoReply): (p: Pipeline)
    ensures 1 <= |p.queries| <= 2 && p.queries[0] == Address(locality, landmark, city)
    ensures |p.queries| == 2 <==> geocode(Address(locality, landmark, city)) == Places([])
    ensures |p.queries| == 2 ==> p.queries[1] == FallbackAddress(locality, city)
    ensures var last := geocode(p.queries[|p.queries| - 1]);
      && (p.outcome.Located? <==> last.Places? && last.results != [])
      && (p.outcome.Located? ==> p.outcome.place == last.results[0] && p.outcome.fallback == (|p.queries| == 2))
      && (p.outcome.LookupFailed? <==> last.TransportError?)
      && (p.outcome.NotLocated? <==> last == Places([]) && |p.queries| == 2)
  {
    var full := Address(locality, landmark, city);
    match geocode(full)
    case TransportError => Pipeline([full], LookupFailed)
    case Places(first) =>
      if first != [] then Pipeline([full], Located(first[0], false))
      else
        var reduced := FallbackAddress(locality, city);
        match geocode(reduced)
        case TransportError => Pipeline([full, reduced], LookupFailed)
        case Places(second) =>
          if second != [] then Pipeline([full, reduced], Located(second[0], true))
          else Pipeline([full, reduced], NotLocated)
  }

  /** The lookup depends on the geocoder only through the queries it issues:
      two geocoders that agree on those give the same pipeline. */
  lemma {:induction false} LocateUsesOnlyItsQueries(locality: string, landmark: string, city: string,
                                                    g1: string -> GeoReply, g2: string -> GeoReply)
    requires forall q :: q in Locate(locality, landmark, city, g1).queries ==> g1(q) == g2(q)
    ensures Locate(locality, landmark, city, g1) == Locate(locality, landmark, city, g2)
  {
    var p := Locate(locality, landmark, city, g1);
    assert p.queries[0] in p.queries;
    if |p.queries| == 2 {
      assert p.queries[1] in p.queries;
    }
  }
}
