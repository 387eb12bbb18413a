/** The per-client rate configuration record of src/FileConfig.py. */
module FileConfig {
  import opened Wrappers

  /** `s2c` holds one number (or None) or a list of numbers. */
  datatype S2cSetting = S2cSingle(number: Option<string>) | S2cList(numbers: seq<string>)

  /** The `Files` dataclass; rates are `Optional[float]`, rate types `Optional[str]`. */
  datatype Files = Files(
    client: string,
    dashboard: string,
    console: string,
    output: string,
    carrier: string,
    rate: Option<real>,
    rateType: Option<string>,
    number1: Option<string>,
    number1Rate: Option<real>,
    number1RateType: Option<string>,
    number1ChargeableCallTypes: seq<string>,
    number2: Option<string>,
    number2Rate: Option<real>,
    number2RateType: Option<string>,
    number2ChargeableCallTypes: seq<string>,
    s2c: S2cSetting,
    s2cRate: Option<real>,
    s2cRateType: Option<string>,
    chargeableCallTypes: seq<string>)

  /** `Files(client, dashboard, console, output)`: the four required fields, every other field at its default. */
  function NewFiles(client: string, dashboard: string, console: string, output: string): (f: Files)
    ensures f.client == client && f.dashboard == dashboard && f.console == console && f.output == output
    ensures f.carrier == "Atlasat"
    ensures f.rate.None? && f.number1Rate.None? && f.number2Rate.None? && f.s2cRate.None?
    ensures f.rateType == f.number1RateType == f.number2RateType == f.s2cRateType == Some("per_minute")
    ensures f.number1.None? && f.number2.None? && f.s2c == S2cSingle(None)
    ensures f.number1ChargeableCallTypes == f.number2ChargeableCallTypes == f.chargeableCallTypes == []
  {
    Files(client, dashboard, console, output, "Atlasat",
          None, Some("per_minute"),
          None, None, Some("per_minute"), [],
          None, None, Some("per_minute"), [],
          S2cSingle(None), None, Some("per_minute"),
          [])
  }
}
