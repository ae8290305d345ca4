/**
 * The route query: the ordered checks of findRoute and the trip it computes.
 * The great-circle distance is a parameter, `dist`; the query itself is a pure
 * function of the registry, the settings and the three inputs.
 */
module Route {
  import opened Names
  import opened Pricing
  import opened Registry

  /** The computed result of a successful query. `from` and `to` are the
      normalised names; `origin` and `destination` are the coordinates the
      map link is built from. */
  datatype Trip = Trip(
    from: string,
    to: string,
    origin: Coord,
    destination: Coord,
    distanceKm: real,
    minutes: int,
    fare: int,
    payment: string)

  /** What a query shows: one of four refusals, in the order they are
      checked, or a trip. */
  datatype RouteOutcome =
    | MissingInput
    | SameLocation
    | UnknownLocation(names: seq<string>)
    | MissingPayment
    | Found(trip: Trip)

  /** JavaScript's `a || b` on strings: `a` unless it is empty. */
  function OrElse(a: string, b: string): string {
    if a != [] then a else b
  }

  /** The `missing` list: each endpoint whose normalised name has no entry,
      under the name as typed (or its normalised form when that is empty),
      the start before the destination. */
  function Unresolved(locs: Locations, fromRaw: string, toRaw: string): seq<string> {
    var from := NormalizeName(fromRaw);
    var to := NormalizeName(toRaw);
    (if from in locs then [] else [OrElse(fromRaw, from)])
    + (if to in locs then [] else [OrElse(toRaw, to)])
  }

  /** findRoute: empty input, then equal endpoints, then unknown endpoints,
      then a missing payment method; a trip only when every check passes. */
  function Query(locs: Locations, cfg: Config, dist: (Coord, Coord) -> real,
                 fromRaw: string, toRaw: string, payment: string): (r: RouteOutcome)
    requires cfg.averageSpeed != 0.0
    ensures var from, to := NormalizeName(fromRaw), NormalizeName(toRaw);
      && (r == MissingInput <==> from == [] || to == [])
      && (r == SameLocation <==> from != [] && from == to)
      && (r.UnknownLocation? <==> from != [] && to != [] && from != to && (from !in locs || to !in locs))
      && (r == MissingPayment <==> from != [] && to != [] && from != to && from in locs && to in locs && payment == [])
      && (r.Found? <==> from != [] && to != [] && from != to && from in locs && to in locs && payment != [])
    ensures var from, to := NormalizeName(fromRaw), NormalizeName(toRaw);
      r.UnknownLocation? ==>
        && r.names == (if from in locs then [] else [fromRaw]) + (if to in locs then [] else [toRaw])
        && 1 <= |r.names| <= 2
    ensures r.Found? ==>
      && r.trip.from == NormalizeName(fromRaw) && r.trip.to == NormalizeName(toRaw)
      && r.trip.origin == locs[r.trip.from] && r.trip.destination == locs[r.trip.to]
      && r.trip.distanceKm == dist(r.trip.origin, r.trip.destination)
      && r.trip.minutes == EstimateTimeMinutes(cfg, r.trip.distanceKm) && r.trip.minutes >= 1
      && r.trip.fare == CalculateFare(cfg, r.trip.distanceKm)
      && (cfg.baseFare >= 0.0 && cfg.pricePerKm >= 0.0 && r.trip.distanceKm >= 0.0 ==> r.trip.fare >= 0)
      && r.trip.payment == payment
  {
    EmptyKeyIffBlank(fromRaw);
    EmptyKeyIffBlank(toRaw);
    var from := NormalizeName(fromRaw);
    var to := NormalizeName(toRaw);
    if from == [] || to == [] then MissingInput
    else if from == to then SameLocation
    else if from !in locs || to !in locs then UnknownLocation(Unresolved(locs, fromRaw, toRaw))
    else
      var f := locs[from];
      var t := locs[to];
      var distanceKm := dist(f, t);
      var minutes := EstimateTimeMinutes(cfg, distanceKm);
      var fare := CalculateFare(cfg, distanceKm);
      if payment == [] then MissingPayment
      else Found(Trip(from, to, f, t, distanceKm, minutes, fare, payment))
  }

  // ---------- Lemmas ----------

  /** Two spellings of one place (same words up to case and spacing) give
      SameLocation, whatever the registry holds: the check comes before any
      lookup, so an unregistered name typed twice is not reported unknown. */
  lemma SameWordsGiveSameLocation(locs: Locations, cfg: Config, dist: (Coord, Coord) -> real,
                                  a: string, b: string, payment: string)
    requires cfg.averageSpeed != 0.0
    requires Words(Lower(a)) == Words(Lower(b)) && Words(Lower(a)) != []
    ensures Query(locs, cfg, dist, a, b, payment) == SameLocation
  {
    SameKeyIffSameWords(a, b);
    WordsAreWords(Lower(a));
    WordsOfJoin(Words(Lower(a)));
  }

  /** The distance function shapes only the trip: with any other distance the
      query fails, or succeeds, in the same way. The distance, time and fare
      computed before the payment check have no effect on a refusal. */
  lemma DistanceOnlyShapesTrip(locs: Locations, cfg: Config, dist1: (Coord, Coord) -> real,
                               dist2: (Coord, Coord) -> real, fromRaw: string, toRaw: string, payment: string)
    requires cfg.averageSpeed != 0.0
    ensures Query(locs, cfg, dist1, fromRaw, toRaw, payment).Found?
        == Query(locs, cfg, dist2, fromRaw, toRaw, payment).Found?
    ensures !Query(locs, cfg, dist1, fromRaw, toRaw, payment).Found? ==>
      Query(locs, cfg, dist1, fromRaw, toRaw, payment) == Query(locs, cfg, dist2, fromRaw, toRaw, payment)
  {
  }

  /** With a symmetric distance, swapping the endpoints gives the same kind of
      outcome, the unknown names in the opposite order, and a trip of the same
      length, duration and fare. */
  lemma SwapEndpoints(locs: Locations, cfg: Config, dist: (Coord, Coord) -> real,
                      a: string, b: string, payment: string)
    requires cfg.averageSpeed != 0.0
    requires forall x, y :: dist(x, y) == dist(y, x)
    ensures var r, s := Query(locs, cfg, dist, a, b, payment), Query(locs, cfg, dist, b, a, payment);
      && (r == MissingInput <==> s == MissingInput)
      && (r == SameLocation <==> s == SameLocation)
      && (r == MissingPayment <==> s == MissingPayment)
      && (r.UnknownLocation? <==> s.UnknownLocation?)
      && (r.UnknownLocation? && |r.names| == 2 ==> s.names == [r.names[1], r.names[0]])
      && (r.UnknownLocation? && |r.names| == 1 ==> s.names == r.names)
      && (r.Found? <==> s.Found?)
      && (r.Found? ==> s.trip.distanceKm == r.trip.distanceKm && s.trip.minutes == r.trip.minutes
                       && s.trip.fare == r.trip.fare)
  {
  }

  // ---------- The registry check as written ----------

  /** The properties every plain JavaScript object inherits from
      Object.prototype whose names are already in normalised form. */
  const InheritedKeys: set<string> := {"constructor", "__proto__"}

  /** The guard `!locations[key]` as written: it passes for an own entry, and
      also for an inherited property, whose value is truthy. */
  predicate ResolvesAsWritten(locs: Locations, key: string) {
    key in locs || key in InheritedKeys
  }

  /** The `missing` list built with the guard as written. */
  function UnresolvedAsWritten(locs: Locations, fromRaw: string, toRaw: string): seq<string> {
    var from := NormalizeName(fromRaw);
    var to := NormalizeName(toRaw);
    (if ResolvesAsWritten(locs, from) then [] else [OrElse(fromRaw, from)])
    + (if ResolvesAsWritten(locs, to) then [] else [OrElse(toRaw, to)])
  }

  /** A query from "constructor" to a registered place: the guard as written
      finds nothing missing, although "constructor" has no coordinate, so the
      distance would be computed from an object without `lat` and `lon`. The
      own-entry check of Query reports the name as unknown. */
  lemma InheritedNameSlipsThrough(locs: Locations, cfg: Config, dist: (Coord, Coord) -> real, payment: string)
    requires cfg.averageSpeed != 0.0
    requires "constructor" !in locs && "red light" in locs
    ensures UnresolvedAsWritten(locs, "constructor", "red light") == []
    ensures Query(locs, cfg, dist, "constructor", "red light", payment) == UnknownLocation(["constructor"])
  {
    InheritedKeyNormalized();
    StarterKeyRedLight();
    NormalizeNormalized("constructor");
    NormalizeNormalized("red light");
  }

  lemma InheritedKeyNormalized()
    ensures Normalized("constructor")
  {
  }
}
