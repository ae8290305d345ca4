# Soloride fare calculator — a Dafny model

Soloride is a browser calculator for shared rides in Monrovia. It keeps a
registry of named places with their coordinates. For two place names typed
by a rider, it finds both places, measures the great-circle distance between
them, and estimates the travel time and the fare in Liberian dollars. Place
names are matched after normalisation: trimmed, lower-cased, and with every
run of white space collapsed to one space. The rider can add or overwrite a
place. The rider can also change the three settings: base fare, price per
kilometre and average speed. A setting that is zero or not a number keeps
its previous value, or its default at start-up.

This project models that core:

- `Names`: `normalizeName`. It also holds a reference definition by words:
  the lower-cased, white-space separated words of a name, joined by single
  spaces.
- `Pricing`: `calculateFare` and `estimateTimeMinutes`, over exact reals,
  with JavaScript's `Math.round`.
- `Settings`: the fallback `Number(x) || fallback` used at start-up and when
  the settings are saved.
- `Registry`: the place registry as a map keyed by normalised names, with
  the upsert of `addOrUpdateLocation`. `Registry.Lookup` (the entry under a
  name's normalised key) is the vocabulary the registry lemmas are stated
  in; `Route.Query` tests membership of the key directly, as `findRoute`
  does.
- `Route`: the decision logic of `findRoute` as a pure function, with its
  four refusals in source order, and the guard as written (see Findings).
- `Soloride`: the module-level state as a class `App` (registry and the
  three settings), with the start-up values, `addOrUpdateLocation`,
  `saveSettingsFromUI` and `findRoute` as its constructor and methods.

Where the code and its written description differ, the model follows the
code:

- `Math.round` sends a tie toward positive infinity: 2.5 goes to 3 and
  -2.5 to -2.
- The estimator has no "invalid configuration" error. It divides by the
  average speed unguarded, and the `|| fallback` keeps that speed non-zero.
  The model keeps all three settings non-zero as a class invariant.
  `EstimateTimeMinutes` requires a non-zero speed.
- Negative settings are accepted, because `Number` parses them and they are
  truthy.

The distance between two places is a parameter `dist` of the route
operations. Page inputs arrive as parameters. `parseFloat` and `Number` of
a text arrive as `Option<real>`, with `None` standing for NaN.

## Model

| member | source | states |
|---|---|---|
| Names.NormalizeName | Soloride.js:52-54 | the key has registry-key shape: no upper-case ASCII letter, no edge white space, only single plain spaces; it equals the lower-cased words of the input joined by single spaces |
| Names.NormalizedIffFixpoint | Soloride.js:52-54 | a string is left unchanged by normalisation exactly when it has registry-key shape |
| Names.NormalizeIdempotent | Soloride.js:52-54 | normalising a key again changes nothing |
| Names.SameKeyIffSameWords | Soloride.js:52-54 | two names give the same key if and only if they have the same lower-cased words |
| Names.EmptyKeyIffBlank | Soloride.js:52-54 | the key is empty if and only if the name is made only of white space |
| Names.CollapseTrimmed | Soloride.js:53 | on a trimmed string, replacing each white-space run by one space yields the words joined by single spaces |
| Names.WordsOfJoin | Soloride.js:53 | splitting words joined by single spaces gives the same words back |
| Names.WordsOfLowerTrim | Soloride.js:53 | trimming before lower-casing does not change the words |
| Pricing.Round | Soloride.js:76 | `Math.round`: the result is within one half of the argument, and a tie goes up |
| Pricing.RoundHalfUp | Soloride.js:76 | k + 0.5 rounds to k + 1 and k - 0.5 rounds to k |
| Pricing.CalculateFare | Soloride.js:73-77 | the fare is the base fare plus price per km times distance, rounded to a whole LD$; it is non-negative for non-negative inputs |
| Pricing.EstimateTimeMinutes | Soloride.js:79-83 | the minutes are at least 1; they are exactly 1 when distance / speed * 60 is below one half, and otherwise that value rounded |
| Pricing.FareMonotone | Soloride.js:73-77 | with a non-negative price per km, a longer trip never costs less |
| Pricing.TimeMonotone | Soloride.js:79-83 | at a positive speed, a longer trip never takes fewer minutes |
| Pricing.WorkedExample | Soloride.js:73-83 | with the defaults 100, 45 and 25, a 4.57 km trip costs LD$ 306 and takes 11 minutes |
| Settings.NumberOr | Soloride.js:47-49 | a non-zero parsed number is the result; 0 and NaN give the fallback; the result is non-zero when the fallback is |
| Settings.StartupConfig | Soloride.js:47-49 | each non-zero stored value is used; each absent, zero or NaN stored value gives its default (100, 45, 25); no setting is zero |
| Settings.ApplySettings | Soloride.js:251-254 | each non-zero entered value replaces its setting; 0 or NaN keeps the old one; non-zero settings stay non-zero |
| Registry.StarterLocations | Soloride.js:6-44 | every starter key has registry-key shape |
| Registry.Upsert | Soloride.js:233 | keys keep registry-key shape; the new coordinate is found under the name; the key set grows by the normalised name only; every other entry is unchanged |
| Registry.UpsertSize | Soloride.js:233 | writing an existing key keeps the registry's size; a new key adds exactly one entry |
| Registry.LookupVariant | Soloride.js:122-134 | names with the same lower-cased words find the same entry |
| Registry.UpsertThenLookup | Soloride.js:215-233 | after a write, any case or spacing variant of the name finds the new coordinate |
| Registry.UpsertLeavesOthers | Soloride.js:215-233 | after a write, a name with other words finds what it found before |
| Route.Query | Soloride.js:119-171 | each outcome holds exactly when its condition does, checked in source order (empty name, same place, unknown place, no payment method); unknown names are listed as typed, start first; a trip carries both keys, their coordinates, the distance, the estimated time and fare, and the payment method |
| Route.SameWordsGiveSameLocation | Soloride.js:122-132 | two spellings of one non-blank name give "same location" whatever the registry holds |
| Route.DistanceOnlyShapesTrip | Soloride.js:146-160 | the distance function affects only a found trip, never which refusal is given |
| Route.SwapEndpoints | Soloride.js:119-171 | with a symmetric distance, swapping the endpoints gives the same kind of outcome, unknown names in reverse order, and the same distance, time and fare |
| Route.InheritedNameSlipsThrough | Soloride.js:134-137 | from "constructor" to a registered place, the guard as written reports nothing missing, while Query reports "constructor" as unknown |
| Soloride.App.constructor | Soloride.js:6-49 | the registry starts with the starter places; the settings are the stored values or their defaults; the invariant holds |
| Soloride.App.AddOrUpdateLocation | Soloride.js:211-242 | an empty name, latitude or longitude gives MissingFields; otherwise an unparsable number gives InvalidNumber; otherwise the coordinate is upserted under the normalised name; a refusal changes nothing; settings never change |
| Soloride.App.SaveSettings | Soloride.js:251-262 | the settings become the fallback update of the old ones; the registry is unchanged; the invariant is kept |
| Soloride.App.FindRoute | Soloride.js:119-171 | the outcome, with unknown names pushed one at a time, is exactly Query's on the current registry and settings |

## Left out

- The great-circle (haversine) distance, lines 56-71: it uses floating-point trigonometry. The distance is a parameter function.
- Floating point in general: fares and times are computed over exact reals, so IEEE rounding, Infinity and NaN arithmetic are not modelled.
- `parseFloat` and `Number` on text: their results arrive as `Option<real>`.
- `toLowerCase` beyond ASCII: only `A`-`Z` are lower-cased.
- Registry.StarterLocations: holds four of the 30 starter places (red light, broad street, elua, duala), with their coordinates from the source. The remaining entries are left out to keep each key's shape proof small.
- Soloride.App.AddOrUpdateLocation: writing the key `__proto__` replaces the object's prototype in JavaScript instead of adding an entry. The model stores it as an ordinary entry.
- The page: reading fields, `showResult`, messages and colours, clearing inputs, the maps link, `toFixed` formatting, and event wiring.
- `populateDatalistAndUI` and `loadSettingsToUI`: they display the registry and the settings and change no state.
- Persisting settings to `localStorage`: the stored values enter the constructor as parameters, and writes back are not modelled.
- The driver list and `renderDrivers`: static display data.

## Findings

| source | as written | input that shows it | evidently intended | confidence | as-written member | corrected member |
|---|---|---|---|---|---|---|
| Soloride.js:134-137 | `!locations[from]` also treats inherited `Object.prototype` properties as registered places | from "constructor", to "red light": no name is reported missing, and the trip is computed from an object without `lat` and `lon` | only the registry's own entries count as known places | not executed | Route.InheritedNameSlipsThrough | Route.Query |
