/**
 * The calculator's module-level state: the registry of places and the three
 * settings, and the operations that read and change them. Reading inputs from
 * the page, showing results and persisting settings are outside the model:
 * their values arrive as parameters and leave as results.
 */
module Soloride {
  import opened Wrappers
  import opened Names
  import opened Pricing
  import opened Settings
  import opened Registry
  import opened Route

  /** What addOrUpdateLocation reports. */
  datatype AddOutcome =
    | Added(name: string)
    | MissingFields
    | InvalidNumber

  class App {
    var locations: Locations
    var baseFare: real
    var pricePerKm: real
    var averageSpeed: real

    /** Registry keys are normalised and no setting is zero. */
    ghost predicate Valid()
      reads this
    {
      KeysNormalized(locations) && NonZero(CurrentConfig())
    }

    function CurrentConfig(): Config
      reads this
    {
      Config(baseFare, pricePerKm, averageSpeed)
    }

    /** Start-up: the starter places, and each setting read back from storage
        (as `Number` of the stored text, `None` for NaN) or its default. */
    constructor (storedBaseFare: Option<real>, storedPricePerKm: Option<real>, storedAverageSpeed: Option<real>)
      ensures Valid()
      ensures locations == StarterLocations()
      ensures CurrentConfig() == StartupConfig(storedBaseFare, storedPricePerKm, storedAverageSpeed)
    {
      locations := StarterLocations();
      baseFare := NumberOr(storedBaseFare, DefaultBaseFare);
      pricePerKm := NumberOr(storedPricePerKm, DefaultPricePerKm);
      averageSpeed := NumberOr(storedAverageSpeed, DefaultAverageSpeed);
    }

    /** addOrUpdateLocation: refuse an empty name, latitude or longitude, then
        a latitude or longitude that does not parse; otherwise write the
        coordinate under the normalised name. A refusal changes nothing. */
    method AddOrUpdateLocation(nameRaw: string, latRaw: string, lonRaw: string,
                               parseFloat: string -> Option<real>) returns (outcome: AddOutcome)
      requires Valid()
      modifies this
      ensures Valid()
      ensures CurrentConfig() == old(CurrentConfig())
      ensures outcome == MissingFields <==> NormalizeName(nameRaw) == [] || latRaw == [] || lonRaw == []
      ensures outcome == InvalidNumber <==>
        && NormalizeName(nameRaw) != [] && latRaw != [] && lonRaw != []
        && (parseFloat(latRaw) == None || parseFloat(lonRaw) == None)
      ensures outcome.Added? ==>
        && outcome.name == NormalizeName(nameRaw)
        && locations == Upsert(old(locations), nameRaw, Coord(parseFloat(latRaw).value, parseFloat(lonRaw).value))
      ensures !outcome.Added? ==> locations == old(locations)
    {
      var name := NormalizeName(nameRaw);
      if name == [] || latRaw == [] || lonRaw == [] {
        return MissingFields;
      }
      var lat := parseFloat(latRaw);
      var lon := parseFloat(lonRaw);
      if lat == None || lon == None {
        return InvalidNumber;
      }
      locations := locations[name := Coord(lat.value, lon.value)];
      outcome := Added(name);
    }

    /** saveSettingsFromUI: each entered value (as `Number` of the field,
        `None` for NaN) replaces its setting unless it is 0 or NaN. */
    method SaveSettings(baseFareInput: Option<real>, pricePerKmInput: Option<real>, averageSpeedInput: Option<real>)
      requires Valid()
      modifies this
      ensures Valid()
      ensures locations == old(locations)
      ensures CurrentConfig() == ApplySettings(old(CurrentConfig()), baseFareInput, pricePerKmInput, averageSpeedInput)
    {
      baseFare := NumberOr(baseFareInput, baseFare);
      pricePerKm := NumberOr(pricePerKmInput, pricePerKm);
      averageSpeed := NumberOr(averageSpeedInput, averageSpeed);
    }

    /** findRoute against the current registry and settings, with the
        unresolved names collected one push at a time. */
    method FindRoute(fromRaw: string, toRaw: string, payment: string, dist: (Coord, Coord) -> real)
      returns (outcome: RouteOutcome)
      requires Valid()
      ensures outcome == Query(locations, CurrentConfig(), dist, fromRaw, toRaw, payment)
    {
      var from := NormalizeName(fromRaw);
      var to := NormalizeName(toRaw);
      if from == [] || to == [] {
        return MissingInput;
      }
      if from == to {
        return SameLocation;
      }
      if from !in locations || to !in locations {
        var missing: seq<string> := [];
        if from !in locations {
          missing := missing + [OrElse(fromRaw, from)];
        }
        if to !in locations {
          missing := missing + [OrElse(toRaw, to)];
        }
        return UnknownLocation(missing);
      }
      var f := locations[from];
      var t := locations[to];
      var distanceKm := dist(f, t);
      var timeMin := EstimateTimeMinutes(CurrentConfig(), distanceKm);
      var fare := CalculateFare(CurrentConfig(), distanceKm);
      if payment == [] {
        return MissingPayment;
      }
      outcome := Found(Trip(from, to, f, t, distanceKm, timeMin, fare, payment));
    }
  }
}
