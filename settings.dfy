/**
 * The settings fallback `Number(x) || fallback`. `Number` itself is not
 * modelled: its result reaches these functions as an `Option<real>`, `None`
 * standing for NaN. JavaScript's `||` keeps the fallback when the number is
 * falsy, that is 0 or NaN.
 */
module Settings {
  import opened Wrappers
  import opened Pricing

  const DefaultBaseFare: real := 100.0
  const DefaultPricePerKm: real := 45.0
  const DefaultAverageSpeed: real := 25.0

  /** `Number(x) || fallback`: the parsed number unless it is 0 or NaN. */
  function NumberOr(number: Option<real>, fallback: real): (r: real)
    ensures r == fallback || number == Some(r)
    ensures number == None || number == Some(0.0) ==> r == fallback
    ensures number.Some? && number.value != 0.0 ==> r == number.value
    ensures r != 0.0 || fallback == 0.0
  {
    if number.Some? && number.value != 0.0 then number.value else fallback
  }

  /** No setting is zero; in particular the average speed can be divided by. */
  ghost predicate NonZero(cfg: Config) {
    cfg.baseFare != 0.0 && cfg.pricePerKm != 0.0 && cfg.averageSpeed != 0.0
  }

  /** The settings at start-up: each stored value, or its default (100, 45
      and 25) when the stored value is absent, zero or not a number. */
  function StartupConfig(storedBaseFare: Option<real>, storedPricePerKm: Option<real>, storedAverageSpeed: Option<real>): (cfg: Config)
    ensures NonZero(cfg)
    ensures storedBaseFare == None || storedBaseFare == Some(0.0) ==> cfg.baseFare == DefaultBaseFare
    ensures storedPricePerKm == None || storedPricePerKm == Some(0.0) ==> cfg.pricePerKm == DefaultPricePerKm
    ensures storedAverageSpeed == None || storedAverageSpeed == Some(0.0) ==> cfg.averageSpeed == DefaultAverageSpeed
    ensures storedBaseFare.Some? && storedBaseFare.value != 0.0 ==> cfg.baseFare == storedBaseFare.value
    ensures storedPricePerKm.Some? && storedPricePerKm.value != 0.0 ==> cfg.pricePerKm == storedPricePerKm.value
    ensures storedAverageSpeed.Some? && storedAverageSpeed.value != 0.0 ==> cfg.averageSpeed == storedAverageSpeed.value
  {
    Config(NumberOr(storedBaseFare, DefaultBaseFare),
           NumberOr(storedPricePerKm, DefaultPricePerKm),
           NumberOr(storedAverageSpeed, DefaultAverageSpeed))
  }

  /** saveSettingsFromUI: each entered value replaces its setting unless it is
      zero or not a number, in which case the previous value stays. */
  function ApplySettings(cfg: Config, baseFare: Option<real>, pricePerKm: Option<real>, averageSpeed: Option<real>): (next: Config)
    ensures NonZero(cfg) ==> NonZero(next)
    ensures next.baseFare == cfg.baseFare || baseFare == Some(next.baseFare)
    ensures next.pricePerKm == cfg.pricePerKm || pricePerKm == Some(next.pricePerKm)
    ensures next.averageSpeed == cfg.averageSpeed || averageSpeed == Some(next.averageSpeed)
    ensures baseFare == None || baseFare == Some(0.0) ==> next.baseFare == cfg.baseFare
    ensures pricePerKm == None || pricePerKm == Some(0.0) ==> next.pricePerKm == cfg.pricePerKm
    ensures averageSpeed == None || averageSpeed == Some(0.0) ==> next.averageSpeed == cfg.averageSpeed
    ensures baseFare.Some? && baseFare.value != 0.0 ==> next.baseFare == baseFare.value
    ensures pricePerKm.Some? && pricePerKm.value != 0.0 ==> next.pricePerKm == pricePerKm.value
    ensures averageSpeed.Some? && averageSpeed.value != 0.0 ==> next.averageSpeed == averageSpeed.value
  {
    Config(NumberOr(baseFare, cfg.baseFare),
           NumberOr(pricePerKm, cfg.pricePerKm),
           NumberOr(averageSpeed, cfg.averageSpeed))
  }
}
